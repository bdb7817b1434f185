/** `prepare_for_mongo` and `parse_from_mongo` (backend/server.py): the
    conversion of dates to ISO text on the way into the database and back to
    dates on the way out, over the document tree. Datetimes (timestamps) are
    not modelled; a date is always a valid calendar date. */
module MongoCodec {
  import opened Common
  import opened Dates

  /** A document value as the backend holds it. */
  datatype Value =
    | Null
    | Bool(b: bool)
    | Number(x: real)
    | Text(s: string)
    | DateValue(d: IsoDate)
    | List(items: seq<Value>)
    | Dict(entries: seq<Entry>)

  datatype Entry = Entry(key: string, value: Value)

  /** `prepare_for_mongo`: a dictionary gets each entry converted; anything
      else is returned unchanged (a date inside a list is such an "anything
      else"). */
  function Prepare(v: Value): (r: Value)
    decreases v, 0
    ensures !v.Dict? ==> r == v
    ensures v.Dict? ==>
      r.Dict? && |r.entries| == |v.entries| &&
      forall i :: 0 <= i < |v.entries| ==> r.entries[i].key == v.entries[i].key
  {
    match v
    case Dict(entries) => Dict(seq(|entries|, i requires 0 <= i < |entries| =>
      Entry(entries[i].key, PrepareEntry(entries[i].value))))
    case _ => v
  }

  /** The conversion of one dictionary value. */
  function PrepareEntry(v: Value): (r: Value)
    decreases v, 1
    ensures v.DateValue? ==> r == Text(IsoFormat(v.d))
    ensures v.List? ==> r.List? && |r.items| == |v.items|
    ensures v.Dict? ==> r.Dict? && |r.entries| == |v.entries|
    ensures !v.DateValue? && !v.List? && !v.Dict? ==> r == v
  {
    match v
    case DateValue(d) => Text(IsoFormat(d))
    case List(items) => List(seq(|items|, i requires 0 <= i < |items| => Prepare(items[i])))
    case Dict(_) => Prepare(v)
    case _ => v
  }

  /** The keys whose text `parse_from_mongo` reads back as a date. */
  predicate IsDateKey(key: string) {
    key == "start_date" || key == "end_date"
  }

  /** `parse_from_mongo`: text under `start_date` or `end_date` that reads as
      a date becomes that date (other text stays, as the `ValueError` branch
      keeps it); lists and dictionaries are converted throughout. */
  function Parse(v: Value): (r: Value)
    decreases v, 0
    ensures !v.Dict? ==> r == v
    ensures v.Dict? ==>
      r.Dict? && |r.entries| == |v.entries| &&
      forall i :: 0 <= i < |v.entries| ==> r.entries[i].key == v.entries[i].key
  {
    match v
    case Dict(entries) => Dict(seq(|entries|, i requires 0 <= i < |entries| =>
      Entry(entries[i].key, ParseEntry(entries[i].key, entries[i].value))))
    case _ => v
  }

  function ParseEntry(key: string, v: Value): (r: Value)
    decreases v, 1
    ensures v.Text? && IsDateKey(key) && ParseIso(v.s).Some? ==> r == DateValue(ParseIso(v.s).value)
    ensures v.Text? && !(IsDateKey(key) && ParseIso(v.s).Some?) ==> r == v
    ensures v.List? ==> r.List? && |r.items| == |v.items|
    ensures v.Dict? ==> r.Dict? && |r.entries| == |v.entries|
    ensures !v.Text? && !v.List? && !v.Dict? ==> r == v
  {
    match v
    case Text(s) =>
      if IsDateKey(key) then
        match ParseIso(s)
        case Some(d) => DateValue(d)
        case None => v
      else v
    case List(items) => List(seq(|items|, i requires 0 <= i < |items| => Parse(items[i])))
    case Dict(_) => Parse(v)
    case _ => v
  }

  /** No dictionary holds a date as a value: the shape the database stores. */
  predicate NoDateEntries(v: Value)
    decreases v, 0
  {
    match v
    case Dict(entries) => forall i :: 0 <= i < |entries| ==> NoDateEntry(entries[i].value)
    case List(items) => forall i :: 0 <= i < |items| ==> NoDateEntries(items[i])
    case _ => true
  }

  predicate NoDateEntry(v: Value)
    decreases v, 1
  {
    !v.DateValue? && NoDateEntries(v)
  }

  /** Dates sit only under `start_date` and `end_date`, and no text under
      those keys reads as a date: the documents whose dates survive a trip
      through the database. */
  predicate DatesWellPlaced(v: Value)
    decreases v, 0
  {
    match v
    case Dict(entries) => forall i :: 0 <= i < |entries| ==> WellPlacedEntry(entries[i].key, entries[i].value)
    case List(items) => forall i :: 0 <= i < |items| ==> DatesWellPlaced(items[i])
    case _ => true
  }

  predicate WellPlacedEntry(key: string, v: Value)
    decreases v, 1
  {
    (v.DateValue? ==> IsDateKey(key)) &&
    (v.Text? && IsDateKey(key) ==> ParseIso(v.s).None?) &&
    DatesWellPlaced(v)
  }

  /** No list holds a list directly: true of every order document, and what
      `prepare_for_mongo` needs to reach every dictionary (it returns a list
      inside a list unchanged). */
  predicate FlatLists(v: Value)
    decreases v
  {
    match v
    case Dict(entries) => forall i :: 0 <= i < |entries| ==> FlatLists(entries[i].value)
    case List(items) => forall i :: 0 <= i < |items| ==> !items[i].List? && FlatLists(items[i])
    case _ => true
  }

  /** Whatever `prepare_for_mongo` returns for a dictionary with flat lists
      holds no date as a dictionary value. */
  lemma {:induction false} PrepareRemovesDateEntries(v: Value)
    requires FlatLists(v)
    ensures v.Dict? ==> NoDateEntries(Prepare(v))
    ensures NoDateEntries(v) ==> NoDateEntries(Prepare(v))
    decreases v, 0
  {
    match v
    case Dict(entries) =>
      var p := Prepare(v);
      forall i | 0 <= i < |entries| ensures NoDateEntry(p.entries[i].value) {
        PrepareEntryRemovesDates(entries[i].value);
      }
    case _ =>
  }

  lemma {:induction false} PrepareEntryRemovesDates(v: Value)
    requires FlatLists(v)
    ensures NoDateEntry(PrepareEntry(v))
    decreases v, 1
  {
    match v
    case DateValue(d) =>
    case List(items) =>
      var p := PrepareEntry(v);
      forall i | 0 <= i < |items| ensures NoDateEntries(p.items[i]) {
        PrepareRemovesDateEntries(items[i]);
        assert items[i].DateValue? ==> NoDateEntries(items[i]);
      }
    case Dict(_) => PrepareRemovesDateEntries(v);
    case _ =>
  }

  /** Storing and reading back gives the same document when its dates are
      well placed. */
  lemma {:induction false} ParsePrepare(v: Value)
    requires DatesWellPlaced(v)
    ensures Parse(Prepare(v)) == v
    decreases v, 0
  {
    match v
    case Dict(entries) =>
      var p := Parse(Prepare(v));
      forall i | 0 <= i < |entries| ensures p.entries[i] == entries[i] {
        ParsePrepareEntry(entries[i].key, entries[i].value);
      }
      assert p.entries == entries;
    case _ =>
  }

  lemma {:induction false} ParsePrepareEntry(key: string, v: Value)
    requires WellPlacedEntry(key, v)
    ensures ParseEntry(key, PrepareEntry(v)) == v
    decreases v, 1
  {
    match v
    case DateValue(d) => ParseFormat(d);
    case List(items) =>
      var p := ParseEntry(key, PrepareEntry(v));
      forall i | 0 <= i < |items| ensures p.items[i] == items[i] {
        ParsePrepare(items[i]);
      }
      assert p.items == items;
    case Dict(_) => ParsePrepare(v);
    case _ =>
  }

  /** Reading a stored document and storing it again gives back the same
      document: every date read back is written out as the same text. */
  lemma {:induction false} PrepareParse(v: Value)
    requires NoDateEntries(v)
    ensures Prepare(Parse(v)) == v
    decreases v, 0
  {
    match v
    case Dict(entries) =>
      var p := Prepare(Parse(v));
      forall i | 0 <= i < |entries| ensures p.entries[i] == entries[i] {
        PrepareParseEntry(entries[i].key, entries[i].value);
      }
      assert p.entries == entries;
    case _ =>
  }

  lemma {:induction false} PrepareParseEntry(key: string, v: Value)
    requires NoDateEntry(v)
    ensures PrepareEntry(ParseEntry(key, v)) == v
    decreases v, 1
  {
    match v
    case Text(s) =>
      if IsDateKey(key) && ParseIso(s).Some? {
        ParseIsoCanonical(s);
      }
    case List(items) =>
      var p := PrepareEntry(ParseEntry(key, v));
      forall i | 0 <= i < |items| ensures p.items[i] == items[i] {
        PrepareParse(items[i]);
      }
      assert p.items == items;
    case Dict(_) => PrepareParse(v);
    case _ =>
  }
}
