/** Typed documents over headed markdown: which fields a kind of document has, which of them it must
    have, and which texts each of them admits. */
module DocumentSchema {
  import opened Sequences
  import opened Wrappers
  import opened Text
  import opened HeadedMarkdown

  /** What an absent field means: an error, nothing, a default that is written out, or a default that
      is left out again when written. For lists only the first two apply. */
  datatype Presence = Required | Optional | Shown(shownDefault: string) | Hidden(hiddenDefault: string)

  /** One field of a schema. `canon` accepts a raw text and returns the text the document keeps; on
      a list field it applies to every item. */
  datatype Slot<!F> = Slot(field: F, presence: Presence, canon: string -> Option<string>)

  datatype SlotError<+F> =
    | MissingRequiredField(field: F)
    | EmptyRequiredList(field: F)
    | InvalidField(field: F)

  function Order<F>(slots: seq<Slot<F>>): (order: seq<F>)
    ensures |order| == |slots| && forall i :: 0 <= i < |slots| ==> order[i] == slots[i].field
  {
    seq(|slots|, i requires 0 <= i < |slots| => slots[i].field)
  }

  function AnyText(text: string): Option<string> { Some(text) }

  function OneOf(token: string -> bool): string -> Option<string> {
    (text: string) => if token(text) then Some(text) else None
  }

  // ---------------------------------------------------------------- reading

  function Canonical(canon: string -> Option<string>, items: seq<string>): Option<seq<string>> {
    if items == [] then Some([])
    else
      var first :- canon(items[0]);
      var rest :- Canonical(canon, items[1..]);
      Some([first] + rest)
  }

  function ScalarValue<F>(slot: Slot<F>, raw: Option<string>): Result<Option<Value>, SlotError<F>> {
    match raw
    case None =>
      (match slot.presence
       case Required => Err(MissingRequiredField(slot.field))
       case Shown(text) => Ok(Some(Scalar(text)))
       case _ => Ok(None))
    case Some(text) =>
      match slot.canon(text)
      case None => Err(InvalidField(slot.field))
      case Some(kept) => Ok(if slot.presence == Hidden(kept) then None else Some(Scalar(kept)))
  }

  function ListItems<F>(slot: Slot<F>, raw: seq<string>): Result<Option<Value>, SlotError<F>> {
    match Canonical(slot.canon, raw)
    case None => Err(InvalidField(slot.field))
    case Some(items) =>
      if items != [] then Ok(Some(List(items)))
      else if slot.presence == Required then Err(EmptyRequiredList(slot.field))
      else Ok(None)
  }

  function SlotValue<F>(t: Table<F>, slot: Slot<F>, fields: Fields<F>): Result<Option<Value>, SlotError<F>> {
    var f := slot.field;
    if t.isList(f) then ListItems(slot, if f in fields && fields[f].List? then fields[f].items else [])
    else ScalarValue(slot, if f in fields && fields[f].Scalar? then Some(fields[f].text) else None)
  }

  /** The document the fields describe; fields that are not part of the schema are ignored. */
  function Build<F>(t: Table<F>, slots: seq<Slot<F>>, fields: Fields<F>): Result<Fields<F>, SlotError<F>> {
    if slots == [] then Ok(map[])
    else
      var value :- SlotValue(t, slots[0], fields);
      var rest :- Build(t, slots[1..], fields);
      Ok(Put(rest, slots[0].field, value))
  }

  // ---------------------------------------------------------------- well-formed documents

  /** `text` is a text the slot keeps as it is. */
  predicate Keeps<F>(slot: Slot<F>, text: string) { Clean(text) && slot.canon(text) == Some(text) }

  ghost predicate SlotHolds<F>(t: Table<F>, slot: Slot<F>, doc: Fields<F>) {
    var f := slot.field;
    if f !in doc then
      slot.presence != Required && (slot.presence.Shown? ==> t.isList(f))
    else
      match doc[f]
      case Scalar(text) => !t.isList(f) && Keeps(slot, text) && slot.presence != Hidden(text)
      case List(items) =>
        && t.isList(f) && items != []
        && forall i :: 0 <= i < |items| ==> Keeps(slot, items[i]) && !t.placeholder(f, items[i])
  }

  /** Every field belongs to the schema, every slot holds a text it keeps or is rightly absent. */
  ghost predicate WellFormed<F>(t: Table<F>, slots: seq<Slot<F>>, doc: Fields<F>) {
    && (forall f :: f in doc ==> f in Order(slots))
    && forall i :: 0 <= i < |slots| ==> SlotHolds(t, slots[i], doc)
  }

  /** A slot keeps what it returns, and returns no placeholder for a meaningful item. */
  ghost predicate ValidSlot<F>(t: Table<F>, slot: Slot<F>) {
    && (slot.presence.Shown? ==> Keeps(slot, slot.presence.shownDefault))
    && forall raw :: Clean(raw) && slot.canon(raw).Some? ==>
         && Keeps(slot, slot.canon(raw).value)
         && (!t.placeholder(slot.field, raw) ==> !t.placeholder(slot.field, slot.canon(raw).value))
  }

  ghost predicate ValidSlots<F>(t: Table<F>, slots: seq<Slot<F>>) {
    Distinct(Order(slots)) && forall i :: 0 <= i < |slots| ==> ValidSlot(t, slots[i])
  }

  // ---------------------------------------------------------------- what is built is well formed

  lemma {:induction false} CanonicalItems<F>(t: Table<F>, slot: Slot<F>, raw: seq<string>)
    requires ValidSlot(t, slot) && Canonical(slot.canon, raw).Some?
    requires forall i :: 0 <= i < |raw| ==> Clean(raw[i]) && !t.placeholder(slot.field, raw[i])
    ensures var items := Canonical(slot.canon, raw).value;
            forall i :: 0 <= i < |items| ==> Keeps(slot, items[i]) && !t.placeholder(slot.field, items[i])
  {
    if raw != [] { CanonicalItems(t, slot, raw[1..]); }
  }

  /** The value read for a slot, as a field of a document. */
  ghost predicate SlotTakes<F>(t: Table<F>, slot: Slot<F>, value: Option<Value>, doc: Fields<F>) {
    (slot.field in doc <==> value.Some?) && (value.Some? ==> doc[slot.field] == value.value)
  }

  lemma SlotValueHolds<F>(t: Table<F>, slot: Slot<F>, fields: Fields<F>, doc: Fields<F>)
    requires ValidSlot(t, slot) && CleanFields(t, fields) && SlotValue(t, slot, fields).Ok?
    requires SlotTakes(t, slot, SlotValue(t, slot, fields).value, doc)
    ensures SlotHolds(t, slot, doc)
  {
    var f := slot.field;
    if t.isList(f) {
      CanonicalItems(t, slot, if f in fields && fields[f].List? then fields[f].items else []);
    }
  }

  lemma {:induction false} BuildTakes<F>(t: Table<F>, slots: seq<Slot<F>>, fields: Fields<F>)
    requires Distinct(Order(slots)) && Build(t, slots, fields).Ok?
    ensures forall f :: f in Build(t, slots, fields).value ==> f in Order(slots)
    ensures forall i :: 0 <= i < |slots| ==>
              && SlotValue(t, slots[i], fields).Ok?
              && SlotTakes(t, slots[i], SlotValue(t, slots[i], fields).value, Build(t, slots, fields).value)
  {
    if slots != [] {
      var order := Order(slots);
      assert Order(slots[1..]) == order[1..];
      BuildTakes(t, slots[1..], fields);
      var doc := Build(t, slots, fields).value;
      forall f | f in doc ensures f in order {
        assert f == order[0] || f in order[1..];
      }
      forall i | 0 <= i < |slots|
        ensures SlotValue(t, slots[i], fields).Ok?
        ensures SlotTakes(t, slots[i], SlotValue(t, slots[i], fields).value, doc)
      {
        if i > 0 {
          assert slots[i] == slots[1..][i - 1] && order[i] != order[0];
        } else {
          assert order[0] !in order[1..];
        }
      }
    }
  }

  /** Whatever fields are accepted, the document is well formed. */
  lemma BuildWellFormed<F>(t: Table<F>, slots: seq<Slot<F>>, fields: Fields<F>)
    requires ValidSlots(t, slots) && CleanFields(t, fields) && Build(t, slots, fields).Ok?
    ensures WellFormed(t, slots, Build(t, slots, fields).value)
  {
    BuildTakes(t, slots, fields);
    forall i | 0 <= i < |slots| ensures SlotHolds(t, slots[i], Build(t, slots, fields).value) {
      SlotValueHolds(t, slots[i], fields, Build(t, slots, fields).value);
    }
  }

  // ---------------------------------------------------------------- well-formed documents are kept

  lemma {:induction false} CanonicalKeeps<F>(slot: Slot<F>, items: seq<string>)
    requires forall i :: 0 <= i < |items| ==> Keeps(slot, items[i])
    ensures Canonical(slot.canon, items) == Some(items)
  {
    if items != [] {
      CanonicalKeeps(slot, items[1..]);
      assert items == [items[0]] + items[1..];
    }
  }

  lemma SlotKeeps<F>(t: Table<F>, slot: Slot<F>, doc: Fields<F>)
    requires SlotHolds(t, slot, doc)
    ensures SlotValue(t, slot, doc).Ok? && SlotTakes(t, slot, SlotValue(t, slot, doc).value, doc)
  {
    var f := slot.field;
    if f in doc && doc[f].List? { CanonicalKeeps(slot, doc[f].items); }
  }

  lemma {:induction false} BuildSucceeds<F>(t: Table<F>, slots: seq<Slot<F>>, fields: Fields<F>)
    requires forall i :: 0 <= i < |slots| ==> SlotValue(t, slots[i], fields).Ok?
    ensures Build(t, slots, fields).Ok?
  {
    if slots != [] { BuildSucceeds(t, slots[1..], fields); }
  }

  lemma WellFormedIsWritable<F>(t: Table<F>, slots: seq<Slot<F>>, doc: Fields<F>)
    requires WellFormed(t, slots, doc)
    ensures Writable(t, doc)
  {
    forall f | f in doc ensures CleanField(t, f, doc[f]) && doc[f] != List([]) {
      var i :| 0 <= i < |slots| && Order(slots)[i] == f;
      assert SlotHolds(t, slots[i], doc);
    }
  }

  /** Two documents with the same entry in every slot of their schema are the same. */
  lemma SameEntries<F>(slots: seq<Slot<F>>, a: Fields<F>, b: Fields<F>)
    requires forall f :: f in a || f in b ==> f in Order(slots)
    requires forall i :: 0 <= i < |slots| ==> SameEntry(slots[i], a, b)
    ensures a == b
  {
    forall f | f in a || f in b ensures f in a && f in b && a[f] == b[f] {
      var i :| 0 <= i < |slots| && Order(slots)[i] == f;
      assert SameEntry(slots[i], a, b);
    }
  }

  ghost predicate SameEntry<F>(slot: Slot<F>, a: Fields<F>, b: Fields<F>) {
    (slot.field in a <==> slot.field in b) && (slot.field in a ==> a[slot.field] == b[slot.field])
  }

  /** A well-formed document is rebuilt from its own fields. */
  lemma BuildKeeps<F>(t: Table<F>, slots: seq<Slot<F>>, doc: Fields<F>)
    requires Distinct(Order(slots)) && WellFormed(t, slots, doc)
    ensures Build(t, slots, doc) == Ok(doc)
  {
    forall i | 0 <= i < |slots| ensures SlotValue(t, slots[i], doc).Ok? { SlotKeeps(t, slots[i], doc); }
    BuildSucceeds(t, slots, doc);
    BuildTakes(t, slots, doc);
    forall i | 0 <= i < |slots| ensures SameEntry(slots[i], Build(t, slots, doc).value, doc) {
      SlotKeeps(t, slots[i], doc);
    }
    SameEntries(slots, Build(t, slots, doc).value, doc);
  }
}
