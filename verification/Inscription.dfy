/** What the store writes into a letter, and what a reader gets back from it. */
module Inscription {
  import opened LetterFormat
  import opened ThreadStamp

  // ---- the letter's fields ----

  /** A value the letter format can carry. */
  predicate Fits(s: string) {
    Trimmed(s) && SingleLine(s)
  }

  predicate Plain(s: string) {
    Fits(s) && !EndsInDashes(s)
  }

  /** Fields the letter format can carry. Some may end in three dashes: the store does not refuse them. */
  predicate Proper(fields: seq<Field>) {
    Distinct(fields) && AllCarried(fields)
  }

  /** Assignment to a dictionary: a new key goes last. */
  function Put(fields: seq<Field>, key: string, value: string): seq<Field> {
    var i := Find(fields, key);
    if i == -1 then fields + [Field(key, value)] else fields[i := Field(key, value)]
  }

  lemma PutSets(fields: seq<Field>, key: string, value: string)
    requires Proper(fields) && Carried(Field(key, value))
    ensures Proper(Put(fields, key, value))
    ensures ToMeta(Put(fields, key, value)) == ToMeta(fields)[key := value]
  {
    hide Carried, ToMeta;
    var i := Find(fields, key);
    if i == -1 {
      var all := fields + [Field(key, value)];
      assert all[..|fields|] == fields;
      AppendMeta(fields, Field(key, value));
    } else {
      ReplacedMeta(fields, i, value);
    }
  }

  lemma AppendMeta(fields: seq<Field>, f: Field)
    ensures ToMeta(fields + [f]) == ToMeta(fields)[f.key := f.value]
  {
    assert (fields + [f])[..|fields|] == fields;
  }

  /** What is printed for an update: its identity, the time, and the letter's own id. */
  function Inscribed(fields: seq<Field>, update: string, sent: string, letterId: string): seq<Field> {
    var dated := Dated(fields, update, sent);
    if Find(dated, "id") == -1 then dated else Put(dated, "id", letterId)
  }

  lemma KeyIsCarried(key: string, value: string)
    requires key in ["source_id", "sent", "id", "thread"] && Fits(value)
    ensures Carried(Field(key, value))
  {
  }

  function Dated(fields: seq<Field>, update: string, sent: string): seq<Field> {
    Put(Put(fields, "source_id", update), "sent", sent)
  }

  lemma DatedIsProper(fields: seq<Field>, update: string, sent: string)
    requires Proper(fields) && Fits(update) && Fits(sent)
    ensures Proper(Dated(fields, update, sent))
    ensures ToMeta(Dated(fields, update, sent)) == ToMeta(fields)["source_id" := update]["sent" := sent]
  {
    KeyIsCarried("source_id", update);
    KeyIsCarried("sent", sent);
    hide Proper, Carried, EndsInDashes, Put, ToMeta, SingleLine, Trimmed, Find;
    PutSets(fields, "source_id", update);
    PutSets(Put(fields, "source_id", update), "sent", sent);
  }

  lemma InscribedIsProper(fields: seq<Field>, update: string, sent: string, letterId: string)
    requires Proper(fields) && Fits(update) && Fits(sent) && Fits(letterId)
    ensures Proper(Inscribed(fields, update, sent, letterId))
    ensures var m := ToMeta(Inscribed(fields, update, sent, letterId)); "source_id" in m && m["source_id"] == update
    ensures forall k :: k in ToMeta(fields) && k !in ["source_id", "sent", "id"] ==>
              k in ToMeta(Inscribed(fields, update, sent, letterId))
              && ToMeta(Inscribed(fields, update, sent, letterId))[k] == ToMeta(fields)[k]
    ensures "thread" in ToMeta(fields) ==> "thread" in ToMeta(Inscribed(fields, update, sent, letterId))
  {
    DatedIsProper(fields, update, sent);
    KeyIsCarried("id", letterId);
    hide Proper, Carried, EndsInDashes, Put, ToMeta, SingleLine, Trimmed, Find, Dated, Fits;
    PutSets(Dated(fields, update, sent), "id", letterId);
    KeepsSource(ToMeta(fields), update, sent, letterId);
    KeepsOthers(ToMeta(fields), update, sent, letterId);
  }

  lemma KeepsSource(meta: Meta, update: string, sent: string, letterId: string)
    ensures var m := meta["source_id" := update]["sent" := sent];
            && "source_id" in m && m["source_id"] == update && ("thread" in meta ==> "thread" in m)
            && "source_id" in m["id" := letterId] && m["id" := letterId]["source_id"] == update
            && ("thread" in meta ==> "thread" in m["id" := letterId])
  {
    KeysDiffer();
  }

  lemma KeepsOthers(meta: Meta, update: string, sent: string, letterId: string)
    ensures forall k :: k in meta && k !in ["source_id", "sent", "id"] ==>
              var m := meta["source_id" := update]["sent" := sent];
              k in m && m[k] == meta[k] && k in m["id" := letterId] && m["id" := letterId][k] == meta[k]
  {
  }

  lemma KeysDiffer()
    ensures "source_id" != "sent" && "source_id" != "id" && "source_id" != "thread"
  {
    assert |"source_id"| == 9;
  }

  // ---- reading one field back ----

  /** The fields that stand above this one in the letter. */
  function Above(fields: seq<Field>, key: string): seq<Field> {
    var o := Ordered(fields);
    var i := Find(o, key);
    if i == -1 then o else o[..i]
  }

  /** Where a field stands in the letter. */
  lemma Stands(fields: seq<Field>, key: string) returns (i: nat)
    requires Proper(fields) && key in ToMeta(fields)
    ensures Distinct(Ordered(fields)) && AllCarried(Ordered(fields)) && i < |Ordered(fields)|
    ensures Ordered(fields)[i] == Field(key, ToMeta(fields)[key]) && Above(fields, key) == Ordered(fields)[..i]
  {
    hide ToMeta, Ordered, Carried, EndsInDashes;
    OrderedIsSame(fields);
    CarriedInOrder(fields);
    MetaHolds(fields);
    var o := Ordered(fields);
    assert Field(key, ToMeta(fields)[key]) in o;
    i :| 0 <= i < |o| && o[i] == Field(key, ToMeta(fields)[key]);
    var j := Find(o, key);
    assert j == i;
  }

  /**
   A printed field whose own value does not end in dashes reads back exactly when no field above it
   ends in dashes; otherwise the letter reads without it.
   */
  lemma FieldOfPrinted(fields: seq<Field>, body: string, key: string)
    requires Proper(fields) && key in ToMeta(fields) && !EndsInDashes(ToMeta(fields)[key])
    ensures Resolve(Serialise(fields, body)).Letter?
    ensures var m := Resolve(Serialise(fields, body)).meta;
            if NoneEndsInDashes(Above(fields, key)) then key in m && m[key] == ToMeta(fields)[key] else key !in m
  {
    hide Ordered, ToMeta, Resolve, EndsInDashes, Sheet, AllCarried;
    var i := Stands(fields, key);
    Layout(fields, body);
    FieldReads(Ordered(fields), body + "\n", i);
  }

  /** The source_id a letter records; none for a letter that does not parse. */
  function Origin(text: string): string {
    var r := Resolve(text);
    if r.Letter? && "source_id" in r.meta then r.meta["source_id"] else ""
  }

  function ThreadOf(text: string): string {
    var r := Resolve(text);
    if r.Letter? && "thread" in r.meta then r.meta["thread"] else ""
  }

  /** Nothing above its source_id closes the front of the letter early. */
  predicate Legible(fields: seq<Field>) {
    NoneEndsInDashes(Above(fields, "source_id"))
  }

  /**
   A printed letter gives back the update it was printed for exactly when no field above its
   source_id ends in three dashes, and otherwise it records no update at all.
   */
  lemma OriginOfPrinted(fields: seq<Field>, body: string, update: string, sent: string, letterId: string)
    requires Proper(fields) && Plain(update) && Fits(sent) && Fits(letterId)
    ensures var all := Inscribed(fields, update, sent, letterId);
            Origin(Serialise(all, body)) == if Legible(all) then update else ""
  {
    var all := Inscribed(fields, update, sent, letterId);
    InscribedIsProper(fields, update, sent, letterId);
    hide Inscribed, Proper, ToMeta, Resolve, Serialise, Above, Trimmed, SingleLine, NoneEndsInDashes;
    FieldOfPrinted(all, body, "source_id");
  }

  /** A sender, say, that ends in dashes makes every letter illegible. */
  lemma DashesHideUpdate(fields: seq<Field>, key: string, update: string, sent: string, letterId: string)
    requires Proper(fields) && Fits(update) && Fits(sent) && Fits(letterId)
    requires key in ENVELOPE_ORDER && key != "id" && key in ToMeta(fields) && EndsInDashes(ToMeta(fields)[key])
    ensures !Legible(Inscribed(fields, update, sent, letterId))
  {
    var all := Inscribed(fields, update, sent, letterId);
    InscribedIsProper(fields, update, sent, letterId);
    NotEnvelope();
    hide Inscribed, Proper, ToMeta, Above, Fits, EndsInDashes;
    EnvelopeFirst(all, key);
    var above := Above(all, "source_id");
    var i :| 0 <= i < |above| && above[i] == Field(key, ToMeta(fields)[key]);
  }

  // ---- after the stamp ----

  /** Every field of the envelope stands above the source_id. */
  lemma EnvelopeFirst(fields: seq<Field>, key: string)
    requires Proper(fields) && key in ENVELOPE_ORDER && key in ToMeta(fields) && "source_id" in ToMeta(fields)
    ensures Above(fields, key) <= Above(fields, "source_id")
    ensures Field(key, ToMeta(fields)[key]) in Above(fields, "source_id")
  {
    var t := Stands(fields, key);
    var s := Stands(fields, "source_id");
    Apart(fields, t, s);
    hide ToMeta, Ordered, Proper, Above;
    var o := Ordered(fields);
    assert o[..s][..t] == o[..t];
    assert o[..s][t] == o[t];
  }

  lemma Apart(fields: seq<Field>, t: nat, s: nat)
    requires Distinct(fields) && t < |Ordered(fields)| && s < |Ordered(fields)|
    requires Ordered(fields)[t].key in ENVELOPE_ORDER && Ordered(fields)[s].key == "source_id"
    ensures t < s
  {
    assert DistinctKeys(ENVELOPE_ORDER);
    PickedAre(fields, ENVELOPE_ORDER);
    OthersAre(fields, ENVELOPE_ORDER);
    var a, b := Picked(fields, ENVELOPE_ORDER), Others(fields, ENVELOPE_ORDER);
    NotEnvelope();
    hide Picked, Others;
    forall k | 0 <= k < |a| ensures a[k].key in ENVELOPE_ORDER { assert a[k] in a; }
    forall k | 0 <= k < |b| ensures b[k].key !in ENVELOPE_ORDER { assert b[k] in b; }
    assert (a + b)[t].key in ENVELOPE_ORDER && (a + b)[s].key == "source_id";
  }

  lemma NotEnvelope()
    ensures "source_id" !in ENVELOPE_ORDER && "sent" !in ENVELOPE_ORDER
  {
    assert |"source_id"| == 9 && |"requires_ack"| == 12 && |"deadline"| == 8 && |"priority"| == 8;
    assert "sent"[0] == 's' && "from"[0] == 'f' && "type"[0] == 't';
  }

  /** Above one field, replacing another's value replaces just that. */
  lemma AboveWith(fields: seq<Field>, key: string, value: string, other: string)
    ensures Above(With(fields, key, value), other) == With(Above(fields, other), key, value)
  {
    OrderedWith(fields, key, value);
    hide Ordered;
    var o := Ordered(fields);
    WithAt(o, key, value);
    FindIn(With(o, key, value), o, other);
    var i := Find(o, other);
    if i != -1 {
      assert o == o[..i] + o[i..];
      WithSplits(o[..i], o[i..], key, value);
      WithAt(o[..i], key, value);
    }
  }

  lemma WithProper(fields: seq<Field>, thread: string) returns (n: nat)
    requires Proper(fields) && "thread" in ToMeta(fields) && Fits(thread)
    ensures n < |fields| && fields[n].key == "thread" && Carried(Field("thread", thread))
    ensures Proper(With(fields, "thread", thread))
    ensures ToMeta(With(fields, "thread", thread)) == ToMeta(fields)["thread" := thread]
  {
    KeyIsCarried("thread", thread);
    MetaHolds(fields);
    hide ToMeta, Carried, With, Fits;
    assert Field("thread", ToMeta(fields)["thread"]) in fields;
    n :| 0 <= n < |fields| && fields[n] == Field("thread", ToMeta(fields)["thread"]);
    WithReplaces(fields, n, thread);
    CarriedWith(fields, "thread", thread);
  }

  /**
   A stamped letter, too, gives back its update or none, and gives back its thread where it gives
   back its update. A thread that does not end in dashes leaves a legible letter legible.
   */
  lemma OriginOfStamped(fields: seq<Field>, body: string, update: string, thread: string)
    requires Proper(fields) && "source_id" in ToMeta(fields) && ToMeta(fields)["source_id"] == update && Plain(update)
    requires "thread" in ToMeta(fields) && Fits(thread) && thread != ""
    ensures var text := Stamp(Serialise(fields, body), thread);
            && Origin(text) == (if Legible(With(fields, "thread", thread)) then update else "")
            && (Origin(text) != "" ==> ThreadOf(text) == thread)
    ensures Legible(fields) && !EndsInDashes(thread) ==> Legible(With(fields, "thread", thread))
  {
    hide Proper, ToMeta, Resolve, Serialise, Stamp, With, Above, Trimmed, SingleLine, Carried, EndsInDashes;
    var n := WithProper(fields, thread);
    var after := With(fields, "thread", thread);
    KeysDiffer();
    ProperParts(fields);
    StampSetsThread(fields, body, thread, n);
    FieldOfPrinted(after, body, "source_id");
    assert ENVELOPE_ORDER[5] == "thread";
    EnvelopeFirst(after, "thread");
    if Legible(after) {
      PrefixDashes(Above(after, "thread"), Above(after, "source_id"), Field("thread", thread));
      FieldOfPrinted(after, body, "thread");
    }
    AboveWith(fields, "thread", thread, "source_id");
    DashesWith(Above(fields, "source_id"), thread);
  }

  lemma ProperParts(fields: seq<Field>)
    requires Proper(fields)
    ensures Distinct(fields) && AllCarried(fields)
  {
  }

  lemma PrefixDashes(a: seq<Field>, b: seq<Field>, f: Field)
    requires a <= b && f in b && NoneEndsInDashes(b)
    ensures NoneEndsInDashes(a) && !EndsInDashes(f.value)
  {
    hide EndsInDashes;
    forall i | 0 <= i < |a| ensures !EndsInDashes(a[i].value) { assert a[i] == b[i]; }
  }

  lemma DashesWith(fields: seq<Field>, thread: string)
    ensures NoneEndsInDashes(fields) && !EndsInDashes(thread) ==> NoneEndsInDashes(With(fields, "thread", thread))
  {
    hide EndsInDashes;
    WithAt(fields, "thread", thread);
  }
}
