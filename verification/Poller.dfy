/**
 The inbound cycle: fetch, a letter on disk for every permitted update, then the mark, then the
 platform is told. A cycle may fail at any step, and the process may be restarted between two.
 */
module Poller {
  import opened Collections
  import opened LetterFormat
  import opened Inscription
  import opened MailStore
  import opened TelegramOffset
  import opened Decimal

  datatype Cycle = Cycle(fetched: nat, published: nat, denied: nat, duplicate: nat)

  /** The text begins with the word that cuts a thread. */
  predicate Cuts(text: string) {
    text == "/new" || (|text| >= 5 && text[..5] == "/new ")
  }

  predicate Marked(mark: Option<nat>, u: Update) {
    mark.Some? && u.id <= mark.value
  }

  /** An update that arrives later lies above every known mark. */
  lemma MarkedIsOld(before: seq<Update>, after: seq<Update>, mark: Option<nat>, u: Update)
    requires before <= after && Ascending(after) && Known(before, mark)
    requires u in after && Marked(mark, u)
    ensures u in before
  {
    var i :| 0 <= i < |before| && before[i].id == mark.value;
    var j :| 0 <= j < |after| && after[j] == u;
    assert after[i] == before[i];
    assert j <= i;
    assert before[j] == u;
  }

  lemma {:induction false} ShownIsPlain(n: nat)
    ensures Plain(Show(n)) && Show(n) != ""
  {
    var s := Show(n);
    forall i | 0 <= i < |s| ensures !Space(s[i]) && s[i] != '-' {
      assert IsDigit(s[i]);
    }
    assert |s| >= 3 ==> s[|s| - 3..][0] == s[|s| - 3] != '-';
  }

  class Bridge {
    const mail: Mailbox
    const platform: Telegram
    /** The open thread of each correspondent. */
    var threads: map<string, string>
    /** The correspondents the allowlist names now, and whether anybody edits it during a cycle. */
    var allowlist: set<string>
    const steady: bool
    /** Updates the allowlist turned away at some time. */
    ghost var denied: set<nat>
    /** How often the heartbeat was written. */
    var beats: nat

    ghost predicate Handled(u: Update)
      reads `denied, mail
    {
      u.id in denied || Has(mail.whose, Show(u.id))
    }

    /** Every update up to the mark in memory, and every update the platform may have forgotten, was handled. */
    ghost predicate NothingLost()
      reads `denied, mail, platform
    {
      forall u :: u in platform.issued && (Marked(platform.acked, u) || u.id < platform.floor) ==> Handled(u)
    }

    ghost predicate ThreadsArePlain()
      reads `threads
    {
      forall c :: c in threads ==> Plain(threads[c]) && threads[c] != ""
    }

    ghost predicate Valid()
      reads `threads, `denied, mail, platform
    {
      && mail.Valid() && platform.Valid()
      && ThreadsArePlain() && NothingLost()
    }

    constructor (mail: Mailbox, platform: Telegram, allowlist: set<string>, steady: bool)
      requires mail.Valid() && platform.Valid() && platform.issued == []
      ensures Valid() && this.mail == mail && this.platform == platform && this.allowlist == allowlist
      ensures this.steady == steady && threads == map[] && denied == {} && beats == 0
    {
      this.mail, this.platform, threads, denied, beats := mail, platform, map[], {}, 0;
      this.allowlist, this.steady := allowlist, steady;
    }

    /** Somebody edits the allowlist. */
    method Edit()
      modifies `allowlist
      ensures steady ==> allowlist == old(allowlist)
    {
      if !steady {
        allowlist := *;
      }
    }

    /** Somebody damages the table of threads; a damaged table reads as an empty one. */
    method DamageThreads()
      requires ThreadsArePlain()
      modifies `threads
      ensures ThreadsArePlain() && (threads == old(threads) || threads == map[])
    {
      if * { threads := map[]; }
    }

    /** One open thread per correspondent: it goes on until the word cuts it, and every other stays as it is. */
    method CurrentThread(correspondent: string, letterId: string, cut: bool) returns (thread: Option<string>)
      requires Plain(letterId) && letterId != ""
      requires ThreadsArePlain()
      modifies `threads
      ensures ThreadsArePlain()
      ensures thread.None? ==> threads == old(threads) && (cut || correspondent !in threads)
      ensures thread.Some? ==> threads.Keys == old(threads).Keys + {correspondent}
      ensures thread.Some? ==> thread == Some(threads[correspondent])
      ensures thread.Some? ==>
                thread.value == if !cut && correspondent in old(threads) then old(threads)[correspondent] else letterId
      ensures forall c :: c in old(threads) && c != correspondent ==> threads[c] == old(threads)[c]
      ensures mail.quiet ==> thread.Some?
    {
      hide Plain;
      if cut || correspondent !in threads {
        var fails: bool := *;
        if fails && !mail.quiet { return None; }
        threads := threads[correspondent := letterId];
      }
      return Some(threads[correspondent]);
    }

    /** More letters, and more strangers turned away, lose nothing. */
    twostate lemma MoreLettersLoseNothing()
      requires old(NothingLost()) && old(denied) <= denied
      requires platform.issued == old(platform.issued)
      requires platform.acked == old(platform.acked) && platform.floor == old(platform.floor)
      requires Kept(old(mail.whose), mail.whose)
      ensures NothingLost()
    {
      KeptHas(old(mail.whose), mail.whose);
      hide Has;
      forall v | v in platform.issued && (Marked(platform.acked, v) || v.id < platform.floor) ensures Handled(v) {
        assert old(Handled(v));
      }
    }

    /** What a cycle does to the letters: it may add some, and doubles an update only where its letters were missed. */
    twostate predicate OnlyMore()
      reads mail
    {
      && old(mail.Letters()).Keys <= mail.Letters().Keys && Kept(old(mail.whose), mail.whose)
      && old(mail.missed) <= mail.missed && old(mail.doubled) <= mail.doubled
    }

    /** The thread a letter belongs to that replies to none: its correspondent's open one, unless it cuts it. */
    function OpenThread(u: Update, letterId: string, table: map<string, string>): string {
      if !Cuts(u.body) && u.correspondent in table then table[u.correspondent] else letterId
    }

    /**
     A letter that shows its update carries the thread it replies into, or else the one open for its
     correspondent now: the one that was open before, where that was readable, or its own.
     */
    ghost predicate InThread(u: Update, name: Name, before: map<string, string>)
      reads `threads, mail
    {
      name in mail.Letters() && var text := mail.Letters()[name];
      Origin(text) != "" ==>
        if u.reply.Some? then ThreadOf(text) == u.reply.value
        else
          && u.correspondent in threads && ThreadOf(text) == threads[u.correspondent]
          && ThreadOf(text) in {OpenThread(u, mail.idOf(name), before), OpenThread(u, mail.idOf(name), map[])}
    }

    /** The drawn part of the name makes it a new one. */
    predicate Fresh(u: Update, unique: nat)
      reads mail
    {
      Own(unique, mail.token(Show(u.id))) !in mail.inbox && Own(unique, mail.token(Show(u.id))) !in mail.processed
    }

    lemma SomeFresh(u: Update)
      ensures exists unique: nat :: Fresh(u, unique)
    {
      var unique := PastAll(mail.inbox.Keys + mail.processed.Keys, mail.token(Show(u.id)));
      assert Fresh(u, unique);
    }

    /** The drawn part of a name, and the clock. */
    method Draw(u: Update) returns (unique: nat, now: nat)
      ensures mail.quiet ==> Fresh(u, unique)
    {
      hide Fresh;
      SomeFresh(u);
      unique :| mail.quiet ==> Fresh(u, unique);
      now :| true;
    }

    /** One permitted update. When this does not fail the update has a letter, and a new letter its thread. */
    method Take(u: Update, unique: nat, now: nat) returns (r: Outcome)
      requires Valid() && Wholesome(u)
      modifies `threads, mail
      ensures Valid() && OnlyMore() && (!r.Failed? ==> Has(mail.whose, Show(u.id)))
      ensures mail.quiet && old(Fresh(u, unique)) ==> !r.Failed?
      ensures !r.Failed? ==> Wrote(old(mail.whose), mail.whose, Made(r))
      ensures r.Published? ==> r.name !in old(mail.Letters()) && r.name in mail.Letters()
      ensures r.Published? ==> InThread(u, r.name, old(threads))
      ensures mail.doubled <= old(mail.doubled) + {Show(u.id)}
    {
      hide Plain, Wholesome, Has, Proper, NothingLost, ToMeta, Origin, ThreadsArePlain, InThread, Mailbox.Valid;
      hide Telegram.Valid, Mailbox.Printed;
      r := PublishFor(u, unique, now);
      MoreLettersLoseNothing();
      if r.Published? {
        label Taken:
        var ok := GiveThread(u, r.name, now);
        SameKept(mail.whose);
        MoreLettersLoseNothing@Taken();
        if !ok { return Failed; }
      }
    }

    /** Its letter, or the one it has, without its thread yet. */
    method PublishFor(u: Update, unique: nat, now: nat) returns (r: Outcome)
      requires mail.Valid() && Wholesome(u)
      modifies mail
      ensures mail.Valid() && OnlyMore() && (!r.Failed? ==> Has(mail.whose, Show(u.id)))
      ensures r.Published? ==> r.name !in old(mail.Letters()) && r.name in mail.Letters() && r.name in mail.whose
      ensures r.Published? ==> mail.whose[r.name] == Show(u.id)
      ensures r.Published? ==> mail.Letters()[r.name] == mail.Printed(r.name, u.fields, u.body, Show(u.id), now)
      ensures mail.doubled <= old(mail.doubled) + {Show(u.id)}
      ensures mail.quiet && old(Fresh(u, unique)) ==> !r.Failed? && (r.Published? ==> r.name in mail.inbox)
      ensures !r.Failed? ==> Wrote(old(mail.whose), mail.whose, Made(r))
    {
      assert Proper(u.fields);
      ShownIsPlain(u.id);
      FreshIsNew(u, unique);
      hide *;
      ghost var made, named, unread;
      r, made, named, unread := mail.PublishOnce(Show(u.id), u.fields, u.body, unique, now);
      NowMore(made, old(mail.Letters()), mail.Letters());
      if !r.Failed? { NowWrote(made, r, old(mail.whose), mail.whose, Show(u.id)); }
    }

    lemma FreshIsNew(u: Update, unique: nat)
      ensures Fresh(u, unique) <==> Own(unique, mail.token(Show(u.id))) !in mail.Letters()
    {
    }

    lemma NowWrote(
        made: Option<Name>, r: Outcome, before: map<Name, string>, now: map<Name, string>, update: string)
      requires now == (if made.Some? then before[made.value := update] else before)
      requires made.Some? <==> r.Published?
      requires made.Some? ==> r == Published(made.value)
      ensures Wrote(before, now, Made(r))
    {
    }

    lemma NowMore(made: Option<Name>, before: Folder, now: Folder)
      requires Grown(before, if made.Some? then now - {made.value} else now)
      ensures before.Keys <= now.Keys
    {
      GrownHas(before, if made.Some? then now - {made.value} else now);
    }

    /**
     A letter just written carries the thread it replies into or else the open thread of its
     correspondent, if it can be read down to its update; and then it still shows its update, unless the
     thread itself ends in dashes.
     */
    method GiveThread(u: Update, name: Name, now: nat) returns (ok: bool)
      requires mail.Valid() && ThreadsArePlain() && Wholesome(u)
      requires name in mail.whose && mail.whose[name] == Show(u.id)
      requires name in mail.Letters() && mail.Letters()[name] == mail.Printed(name, u.fields, u.body, Show(u.id), now)
      modifies `threads, mail
      ensures mail.Valid() && ThreadsArePlain() && name in mail.Letters()
              && old(mail.Letters()).Keys <= mail.Letters().Keys
      ensures unchanged(mail`whose) && unchanged(mail`doubled) && unchanged(mail`missed)
      ensures ok ==> InThread(u, name, old(threads))
      ensures mail.quiet && name in old(mail.inbox) ==> ok
      ensures mail.Shows(name, u.fields, Show(u.id), now) && (u.reply.Some? ==> !EndsInDashes(u.reply.value)) ==>
                Origin(mail.Letters()[name]) == Show(u.id)
    {
      assert Proper(u.fields) && "thread" in ToMeta(u.fields);
      hide Plain, Proper, ToMeta, ThreadOf, Origin, Wholesome, Fits, EndsInDashes, Mailbox.Valid, Mailbox.Printed;
      hide ThreadsArePlain, OpenThread, Mailbox.Shows, Grown;
      ShownIsPlain(u.id);
      mail.IdIsPlain(name);
      mail.PrintedOrigin(name, u.fields, u.body, Show(u.id), now);
      var thread := ThreadFor(u, mail.idOf(name));
      if thread.None? { return false; }
      ok := mail.StampLetter(name, thread.value, u.fields, u.body, Show(u.id), now);
    }

    method ThreadFor(u: Update, letterId: string) returns (thread: Option<string>)
      requires Wholesome(u) && Plain(letterId) && letterId != ""
      requires ThreadsArePlain()
      modifies `threads
      ensures ThreadsArePlain()
      ensures thread.Some? ==> Fits(thread.value) && thread.value != ""
      ensures thread.Some? && u.reply.Some? ==> thread == u.reply
      ensures thread.Some? && u.reply.None? ==> !EndsInDashes(thread.value)
      ensures thread.Some? && u.reply.None? ==> u.correspondent in threads && thread.value == threads[u.correspondent]
      ensures thread.Some? && u.reply.None? ==>
                thread.value in {OpenThread(u, letterId, old(threads)), OpenThread(u, letterId, map[])}
      ensures mail.quiet ==> thread.Some?
    {
      hide Trimmed, SingleLine, EndsInDashes, Cuts;
      if u.reply.Some? { return u.reply; }
      DamageThreads();
      thread := CurrentThread(u.correspondent, letterId, Cuts(u.body));
    }

    /** What a request does to the platform loses nothing. */
    twostate lemma RequestLosesNothing()
      requires old(Valid()) && platform.Valid() && old(platform.issued) <= platform.issued
      requires platform.acked == old(platform.acked)
      requires platform.floor == old(platform.floor)
               || (platform.acked.Some? && platform.floor == platform.acked.value + 1)
      requires mail.whose == old(mail.whose) && denied == old(denied)
      ensures NothingLost()
    {
      hide Wholesome, Has;
      forall u | u in platform.issued && (Marked(platform.acked, u) || u.id < platform.floor) ensures Handled(u) {
        var mark := if Marked(platform.acked, u) then platform.acked else Some(old(platform.floor) - 1);
        MarkedIsOld(old(platform.issued), platform.issued, mark, u);
        assert old(Handled(u));
      }
    }

    ghost predicate HandledUpTo(n: nat)
      reads `denied, mail, platform
      requires n <= |platform.issued|
    {
      forall k :: 0 <= k < n ==> Handled(platform.issued[k])
    }

    /** Silence for a stranger, a letter for anyone else. */
    method Consume(u: Update, ghost n: nat) returns (r: Outcome, allowed: bool)
      requires Valid() && n < |platform.issued| && platform.issued[n] == u && HandledUpTo(n)
      modifies `threads, `denied, `allowlist, mail
      ensures Valid() && HandledUpTo(n)
      ensures !r.Failed? ==> HandledUpTo(n + 1)
      ensures OnlyMore() && (steady ==> allowlist == old(allowlist))
      ensures allowed == (u.correspondent in allowlist)
      ensures allowed && !r.Failed? ==> Has(mail.whose, Show(u.id))
      ensures r.Published? ==> InThread(u, r.name, old(threads))
      ensures r.Published? ==> allowed && r.name !in old(mail.Letters()) && r.name in mail.Letters()
      ensures denied == if allowed then old(denied) else old(denied) + {u.id}
      ensures !allowed ==> r.Duplicate? && mail.Letters() == old(mail.Letters())
      ensures mail.quiet ==> !r.Failed?
      ensures !r.Failed? ==> Wrote(old(mail.whose), mail.whose, Made(r))
    {
      assert Wholesome(u);
      hide Wholesome, Has, Plain, Valid, InThread, Kept, Marked, Fresh, Wrote, HandledUpTo;
      SameKept(mail.whose);
      Edit();
      if u.correspondent in allowlist {
        var unique, now := Draw(u);
        r := Take(u, unique, now);
        allowed := true;
      } else {
        TurnAway(u);
        NoneWritten(mail.whose);
        r, allowed := Duplicate, false;
      }
      StillHandled(n);
      if !r.Failed? { OneMoreHandled(n); }
    }

    twostate lemma StillHandled(n: nat)
      requires n <= |old(platform.issued)| && old(HandledUpTo(n))
      requires old(denied) <= denied && Kept(old(mail.whose), mail.whose) && platform.issued == old(platform.issued)
      ensures HandledUpTo(n)
    {
      KeptHas(old(mail.whose), mail.whose);
      hide Has, Kept;
      forall k | 0 <= k < n ensures Handled(platform.issued[k]) { assert old(Handled(platform.issued[k])); }
    }

    lemma OneMoreHandled(n: nat)
      requires n < |platform.issued| && HandledUpTo(n) && Handled(platform.issued[n])
      ensures HandledUpTo(n + 1)
    {
    }

    method TurnAway(u: Update)
      requires Valid()
      modifies `denied
      ensures Valid() && denied == old(denied) + {u.id}
    {
      hide Wholesome, Has, Plain, Mailbox.Valid, Telegram.Valid, ThreadsArePlain, NothingLost;
      denied := denied + {u.id};
      SameKept(mail.whose);
      MoreLettersLoseNothing();
    }

    lemma GoneAreHandled()
      requires Valid()
      ensures HandledUpTo(platform.gone)
    {
      hide Wholesome, Has, Plain, Known;
    }

    lemma NextIsKnown(n: nat)
      requires n < |platform.issued|
      ensures Known(platform.issued, Some(platform.issued[n].id))
    {
    }

    method Advance(u: Update, ghost n: nat)
      requires Valid() && n < |platform.issued| && platform.issued[n] == u && HandledUpTo(n + 1)
      modifies platform`acked
      ensures Valid() && HandledUpTo(n + 1) && Marked(platform.acked, u)
      ensures forall v :: Marked(old(platform.acked), v) ==> Marked(platform.acked, v)
    {
      hide Wholesome, Has, Plain, Known;
      NextIsKnown(n);
      platform.Ack(u.id);
      forall v | v in platform.issued && v.id <= u.id ensures Handled(v) {
        var j :| 0 <= j < |platform.issued| && platform.issued[j] == v;
        assert j <= n;
      }
    }

    /** What a cycle has to show for itself since it began. */
    ghost predicate Reported(c: Cycle, published: seq<Name>, letters: Folder, away: set<nat>)
      reads `denied, mail
    {
      && c.fetched == c.published + c.denied + c.duplicate && |published| == c.published
      && NewLetters(published, letters, mail.Letters()) && TurnedAway(c.denied, away, denied)
    }

    /** One update: consumed, counted, and only then acked. */
    method TakeOne(
        u: Update, c: Cycle, published: seq<Name>, ghost n: nat, ghost letters: Folder, ghost away: set<nat>,
        ghost was: map<Name, string>)
      returns (ok: bool, c': Cycle, published': seq<Name>)
      requires Valid() && n < |platform.issued| && platform.issued[n] == u && HandledUpTo(n)
      requires Reported(c, published, letters, away) && Names(published, was, mail.whose)
      modifies `threads, `denied, `allowlist, mail, platform`acked
      ensures Valid() && Reported(c', published', letters, away) && (steady ==> allowlist == old(allowlist))
      ensures ok ==> HandledUpTo(n + 1) && c'.fetched == c.fetched + 1 && Marked(platform.acked, u)
      ensures forall v :: Marked(old(platform.acked), v) ==> Marked(platform.acked, v)
      ensures Kept(old(mail.whose), mail.whose) && (mail.quiet ==> ok)
      ensures ok ==> Names(published', was, mail.whose)
      ensures ok && steady && u.correspondent in allowlist ==>
                Has(mail.whose, Show(u.id)) && denied == old(denied) && c'.denied == c.denied
      ensures ok && steady && u.correspondent !in allowlist ==>
                denied == old(denied) + {u.id} && c'.denied == c.denied + 1
    {
      hide Wholesome, Has, Plain, Known, NothingLost, HandledUpTo, Mailbox.Valid, Telegram.Valid, NewLetters;
      hide TurnedAway, Names, Wrote, InThread;
      ghost var there, gone, named := mail.Letters(), denied, mail.whose;
      var r, allowed := Consume(u, n);
      StillNew(published, letters, there, mail.Letters());
      c', published' := c, published;
      if r.Failed? { return false, c', published'; }
      OneMoreNamed(published, was, named, mail.whose, r);
      if !allowed {
        OneTurnedAway(c.denied, away, gone, u.id);
        c' := c.(denied := c.denied + 1);
      } else if r.Duplicate? {
        c' := c.(duplicate := c.duplicate + 1);
      } else {
        OneNewLetter(published, letters, there, mail.Letters(), r.name);
        c', published' := c.(published := c.published + 1), published + [r.name];
      }
      c' := c'.(fetched := c.fetched + 1);
      Advance(u, n);
      ok := true;
    }

    /** Everything in an answer is handled and at or below the mark in memory. */
    ghost predicate TakenIn(batch: seq<Update>)
      reads `denied, mail, platform`acked
    {
      forall i :: 0 <= i < |batch| ==> Handled(batch[i]) && Marked(platform.acked, batch[i])
    }

    /**
     Letter to disk, then the mark, update by update; the letters returned are the new ones. One
     answer of the platform is taken in whole, unless this fails; and where nobody edits the allowlist
     meanwhile, by that allowlist.
     */
    method PollOnce() returns (ok: bool, c: Cycle, published: seq<Name>)
      requires Valid()
      modifies `threads, `denied, `allowlist, mail, platform
      ensures Valid() && Reported(c, published, old(mail.Letters()), old(denied))
      ensures old(platform.issued) <= platform.issued && old(platform.answers) <= platform.answers
      ensures ok ==> |platform.answers| == |old(platform.answers)| + 1
      ensures ok ==> var batch := platform.answers[|old(platform.answers)|]; TakenIn(batch) && c.fetched == |batch|
      ensures ok ==> Names(published, old(mail.whose), mail.whose)
      ensures mail.quiet && platform.quiet ==> ok
      ensures ok && steady ==>
                ByAllowlist(platform.answers[|old(platform.answers)|], old(allowlist), mail.whose, old(denied),
                  denied, c)
    {
      hide Wholesome, Has, Plain, Known, NothingLost, HandledUpTo, Mailbox.Valid, Telegram.Valid, Marked;
      hide Strangers, StrangerCount;
      c, published := Cycle(0, 0, 0, 0), [];
      NobodyTurnedAway(denied);
      var fetched, batch := platform.Fetch();
      RequestLosesNothing();
      GoneAreHandled();
      if !fetched { return false, c, published; }
      hide Reported, Valid, ByAllowlist, TakenIn, Names;
      ok, c, published := TakeIn(batch);
    }

    /** Update by update, in the order of the answer. */
    method TakeIn(batch: seq<Update>) returns (ok: bool, c: Cycle, published: seq<Name>)
      requires Valid() && HandledUpTo(platform.gone) && batch <= platform.issued[platform.gone..]
      modifies `threads, `denied, `allowlist, mail, platform`acked
      ensures Valid() && Reported(c, published, old(mail.Letters()), old(denied))
      ensures ok ==> TakenIn(batch) && c.fetched == |batch| && Names(published, old(mail.whose), mail.whose)
      ensures mail.quiet ==> ok
      ensures ok && steady ==> ByAllowlist(batch, old(allowlist), mail.whose, old(denied), denied, c)
    {
      BatchIsIssued(batch);
      c, published := Cycle(0, 0, 0, 0), [];
      NobodyTurnedAway(denied);
      NoneByAllowlist(allowlist, mail.whose, denied, c);
      NoneNamed(mail.whose);
      assert batch[..0] == [];
      assert Reported(c, published, mail.Letters(), denied);
      ghost var issued, gone := platform.issued, platform.gone;
      hide *;
      for i := 0 to |batch|
        invariant Valid() && TakenSoFar(batch, i, issued, gone)
        invariant Reported(c, published, old(mail.Letters()), old(denied)) && c.fetched == i
        invariant Names(published, old(mail.whose), mail.whose) && (steady ==> allowlist == old(allowlist))
        invariant steady ==> ByAllowlist(batch[..i], old(allowlist), mail.whose, old(denied), denied, c)
      {
        ok, c, published :=
          TakeNext(batch, i, c, published, issued, gone,
            old(mail.Letters()), old(denied), old(allowlist), old(mail.whose));
        if !ok { return; }
      }
      AllTakenIn(batch, issued, gone);
      assert batch[..|batch|] == batch;
      return true, c, published;
    }

    /** The first of an answer's updates are taken in. */
    ghost predicate TakenSoFar(batch: seq<Update>, i: nat, issued: seq<Update>, gone: nat)
      requires i <= |batch|
      reads `denied, mail, platform
    {
      && platform.issued == issued && gone + |batch| <= |issued| && HandledUpTo(gone + i)
      && (forall k :: 0 <= k < |batch| ==> batch[k] == issued[gone + k])
      && (forall k :: 0 <= k < i ==> Marked(platform.acked, batch[k]))
    }

    lemma BatchIsIssued(batch: seq<Update>)
      requires Valid() && HandledUpTo(platform.gone) && batch <= platform.issued[platform.gone..]
      ensures TakenSoFar(batch, 0, platform.issued, platform.gone)
    {
      hide Wholesome, Has, Plain, Known;
      var issued, gone := platform.issued, platform.gone;
      assert forall i :: 0 <= i < |batch| ==> batch[i] == issued[gone..][i] == issued[gone + i];
    }

    method TakeNext(
        batch: seq<Update>, i: nat, c: Cycle, published: seq<Name>, ghost issued: seq<Update>, ghost gone: nat,
        ghost letters: Folder, ghost away: set<nat>, ghost allows: set<string>, ghost was: map<Name, string>)
      returns (ok: bool, c': Cycle, published': seq<Name>)
      requires Valid() && i < |batch| && TakenSoFar(batch, i, issued, gone) && Reported(c, published, letters, away)
      requires Names(published, was, mail.whose)
      requires steady ==> allowlist == allows && ByAllowlist(batch[..i], allows, mail.whose, away, denied, c)
      modifies `threads, `denied, `allowlist, mail, platform`acked
      ensures Valid() && Reported(c', published', letters, away) && (steady ==> allowlist == allows)
      ensures ok ==> TakenSoFar(batch, i + 1, issued, gone) && c'.fetched == c.fetched + 1
      ensures (ok ==> Names(published', was, mail.whose)) && (mail.quiet ==> ok)
      ensures ok && steady ==> ByAllowlist(batch[..i + 1], allows, mail.whose, away, denied, c')
    {
      hide Valid, HandledUpTo, Reported, Has, Kept, Marked, ByAllowlist, Names;
      ok, c', published' := TakeOne(batch[i], c, published, gone + i, letters, away, was);
      if ok && steady {
        OneMoreByAllowlist(batch, i, allows, old(mail.whose), mail.whose, away, old(denied), denied, c, c');
      }
    }

    lemma AllTakenIn(batch: seq<Update>, issued: seq<Update>, gone: nat)
      requires TakenSoFar(batch, |batch|, issued, gone)
      ensures TakenIn(batch)
    {
      hide Has;
    }

    /**
     One cycle: letters, the doorbell (which can fail without consequence), then the platform is
     told, then the heartbeat.
     */
    method RunOnce() returns (ok: bool)
      requires Valid()
      modifies this, mail, platform
      ensures Valid()
      ensures ok && platform.acked.Some? ==> platform.saved == platform.acked && platform.acked.value < platform.floor
      ensures ok ==> old(platform.answers) < platform.answers && TakenIn(platform.answers[|old(platform.answers)|])
      ensures ok && steady ==> Permitted(platform.answers[|old(platform.answers)|], old(allowlist), mail.whose)
      ensures beats == old(beats) + if ok then 1 else 0
      ensures mail.quiet && platform.quiet ==> ok
      ensures old(mail.Letters()).Keys <= mail.Letters().Keys && old(denied) <= denied
              && old(platform.issued) <= platform.issued
    {
      hide Wholesome, Has, Plain, Known, TakenIn, Permitted, Strangers, StrangerCount, NothingLost;
      hide Mailbox.Valid, ThreadsArePlain;
      var c, published;
      ok, c, published := PollOnce();
      if !ok { return; }
      label Polled:
      ok := platform.Confirm();
      RequestLosesNothing@Polled();
      if !ok { return; }
      beats := beats + 1;
    }

    method Restart()
      requires Valid()
      modifies platform`acked, platform`saved
      ensures Valid() && platform.acked == platform.saved
      ensures platform.saved == old(platform.saved) || platform.saved == None
    {
      hide Wholesome, Has, Plain, Known;
      platform.Restart();
    }

    /** Any number of cycles, each cut short anywhere, with restarts and a damaged mark in between. */
    method Lifetime(cycles: nat)
      requires Valid()
      modifies this, mail, platform
      ensures Valid()
      ensures old(mail.Letters()).Keys <= mail.Letters().Keys && old(denied) <= denied
              && old(platform.issued) <= platform.issued
    {
      for c := 0 to cycles
        invariant Valid()
        invariant old(mail.Letters()).Keys <= mail.Letters().Keys && old(denied) <= denied
                  && old(platform.issued) <= platform.issued
      {
        if * {
          Restart();
        }
        var ok := RunOnce();
      }
    }

    /**
     Whatever the platform may have forgotten, and whatever a mark in memory or on disk covers, was
     turned away or has a letter published for it and for no other update. It has exactly one unless
     a lookup once missed the letters it had, and then that is recorded. A mark on disk lies below an
     offset the platform accepted.
     */
    lemma NothingIsLost(u: Update)
      requires Valid() && u in platform.issued
      requires u.id < platform.floor || Marked(platform.acked, u) || Marked(platform.saved, u)
      ensures u.id in denied || exists n :: Carries(mail.Letters(), mail.whose, n, Show(u.id))
      ensures u.id !in denied ==>
                ((exists n :: OnlyLetter(mail.Letters(), mail.whose, n, Show(u.id))) <==> Show(u.id) !in mail.doubled)
      ensures Show(u.id) in mail.doubled ==>
                exists n :: n in mail.missed && Carries(mail.Letters(), mail.whose, n, Show(u.id))
      ensures forall v :: v in platform.issued && Show(v.id) == Show(u.id) ==> v == u
      ensures platform.saved.Some? ==> platform.saved.value < platform.floor
    {
      hide Wholesome, Plain, Known, Origin;
      assert Handled(u);
      ShownIsPlain(u.id);
      CarriedLetters(Show(u.id));
      forall v | v in platform.issued && Show(v.id) == Show(u.id) ensures v == u {
        ShowIsInjective(v.id, u.id);
        var i :| 0 <= i < |platform.issued| && platform.issued[i] == u;
        var j :| 0 <= j < |platform.issued| && platform.issued[j] == v;
      }
    }

    lemma CarriedLetters(update: string)
      requires mail.Valid()
      ensures Has(mail.whose, update) ==> exists n :: Carries(mail.Letters(), mail.whose, n, update)
      ensures Has(mail.whose, update) ==>
                ((exists n :: OnlyLetter(mail.Letters(), mail.whose, n, update)) <==> update !in mail.doubled)
      ensures update in mail.doubled ==> exists n :: n in mail.missed && Carries(mail.Letters(), mail.whose, n, update)
    {
      hide Plain, Origin, Backed;
      var letters, whose := mail.Letters(), mail.whose;
      if Has(whose, update) {
        var n :| n in whose && whose[n] == update;
        assert Carries(letters, whose, n, update);
        if !Twice(whose, update) { assert OnlyLetter(letters, whose, n, update); }
      }
      if update in mail.doubled {
        var n :| n in mail.missed && n in whose && whose[n] == update;
        assert Carries(letters, whose, n, update);
      }
    }
  }

  /** Letters that were not there before, each once. */
  ghost predicate NewLetters(names: seq<Name>, before: Folder, now: Folder) {
    && before.Keys <= now.Keys
    && (forall i :: 0 <= i < |names| ==> names[i] in now && names[i] !in before)
    && (forall i, j :: 0 <= i < j < |names| ==> names[i] != names[j])
  }

  function Made(r: Outcome): set<Name> {
    if r.Published? then {r.name} else {}
  }

  ghost predicate Wrote(before: map<Name, string>, now: map<Name, string>, made: set<Name>) {
    now.Keys == before.Keys + made
  }

  /** These are all the letters published since. */
  ghost predicate Names(names: seq<Name>, before: map<Name, string>, now: map<Name, string>) {
    forall n :: n in now <==> n in before || n in names
  }

  lemma NoneWritten(whose: map<Name, string>)
    ensures Wrote(whose, whose, Made(Duplicate))
  {
  }

  lemma OneMoreNamed(
      names: seq<Name>, before: map<Name, string>, mid: map<Name, string>, now: map<Name, string>, r: Outcome)
    requires Names(names, before, mid) && Wrote(mid, now, Made(r))
    ensures Names(if r.Published? then names + [r.name] else names, before, now)
  {
    forall n ensures n in now <==> n in before || n in (if r.Published? then names + [r.name] else names) {
      assert n in now <==> n in now.Keys;
    }
  }

  lemma NoneNamed(whose: map<Name, string>)
    ensures Names([], whose, whose)
  {
  }

  /** A number that no name of this token carries. */
  lemma PastAll(names: set<Name>, token: nat) returns (unique: nat)
    ensures forall k: nat :: k >= unique ==> Own(k, token) !in names
    decreases |names|
  {
    unique := 0;
    if names != {} {
      var n :| n in names;
      unique := PastAll(names - {n}, token);
      if n.Own? && n.unique >= unique {
        unique := n.unique + 1;
      }
      forall k: nat | k >= unique ensures Own(k, token) !in names {
        assert Own(k, token) !in names - {n};
      }
    }
  }

  /** The updates of a batch that this allowlist turns away. */
  function Strangers(batch: seq<Update>, allows: set<string>): set<nat> {
    set u | u in batch && u.correspondent !in allows :: u.id
  }

  function StrangerCount(batch: seq<Update>, allows: set<string>): nat {
    if batch == [] then 0
    else StrangerCount(batch[..|batch| - 1], allows) + if batch[|batch| - 1].correspondent in allows then 0 else 1
  }

  /** Those that the allowlist names have letters. */
  ghost predicate Permitted(batch: seq<Update>, allows: set<string>, whose: map<Name, string>) {
    forall i :: 0 <= i < |batch| && batch[i].correspondent in allows ==> Has(whose, Show(batch[i].id))
  }

  /** By this allowlist: a letter for each that it names, silence for the others. */
  ghost predicate ByAllowlist(
      batch: seq<Update>, allows: set<string>, whose: map<Name, string>, before: set<nat>, denied: set<nat>, c: Cycle) {
    && Permitted(batch, allows, whose)
    && denied == before + Strangers(batch, allows) && c.denied == StrangerCount(batch, allows)
  }

  lemma NoneByAllowlist(allows: set<string>, whose: map<Name, string>, denied: set<nat>, c: Cycle)
    requires c.denied == 0
    ensures ByAllowlist([], allows, whose, denied, denied, c)
  {
  }

  lemma OneMoreByAllowlist(
      batch: seq<Update>, i: nat, allows: set<string>, there: map<Name, string>, whose: map<Name, string>,
      before: set<nat>, away: set<nat>, denied: set<nat>, c: Cycle, c': Cycle)
    requires i < |batch| && ByAllowlist(batch[..i], allows, there, before, away, c) && Kept(there, whose)
    requires batch[i].correspondent in allows ==>
               Has(whose, Show(batch[i].id)) && denied == away && c'.denied == c.denied
    requires batch[i].correspondent !in allows ==> denied == away + {batch[i].id} && c'.denied == c.denied + 1
    ensures ByAllowlist(batch[..i + 1], allows, whose, before, denied, c')
  {
    KeptHas(there, whose);
    hide Has;
    assert batch[..i + 1] == batch[..i] + [batch[i]];
    assert batch[..i + 1][..i] == batch[..i];
  }

  /** No more updates became denied than were counted. */
  ghost predicate TurnedAway(count: nat, before: set<nat>, now: set<nat>) {
    before <= now && |now - before| <= count
  }

  lemma NobodyTurnedAway(now: set<nat>)
    ensures TurnedAway(0, now, now)
  {
    assert now - now == {};
  }

  lemma OneTurnedAway(count: nat, before: set<nat>, now: set<nat>, id: nat)
    requires TurnedAway(count, before, now)
    ensures TurnedAway(count + 1, before, now + {id})
  {
    if id in now {
      assert now + {id} == now;
    } else {
      assert (now + {id}) - before == (now - before) + {id};
    }
  }

  lemma StillNew(names: seq<Name>, before: Folder, now: Folder, later: Folder)
    requires NewLetters(names, before, now) && now.Keys <= later.Keys
    ensures NewLetters(names, before, later)
  {
  }

  lemma OneNewLetter(names: seq<Name>, before: Folder, now: Folder, later: Folder, n: Name)
    requires NewLetters(names, before, now) && now.Keys <= later.Keys && n in later && n !in now
    ensures NewLetters(names + [n], before, later)
  {
  }

  /** A letter that was published for this update, and records it or no update at all. */
  ghost predicate Carries(letters: Folder, whose: map<Name, string>, n: Name, update: string) {
    && n in whose && whose[n] == update && n in letters
    && (Origin(letters[n]) == update || Origin(letters[n]) == "")
  }

  ghost predicate OnlyLetter(letters: Folder, whose: map<Name, string>, n: Name, update: string) {
    Carries(letters, whose, n, update) && forall m :: m in whose && whose[m] == update ==> m == n
  }
}
