/** MongoDB documents as the server's handlers see them: BSON object ids, a
    collection as a sequence of documents in natural (insertion) order, and the
    three primitives the handlers use on it: `findOne({field: value})`,
    `updateMany(filter, {$set: ...})` and `insertOne(doc)`.

    A filter value the request left undefined is serialised by the driver as
    BSON null, and `{field: null}` matches a document whose field is null or
    missing. Every filtered field is therefore an `Option<string>` and a filter
    is plain equality on it: `None` matches `None`. */
module Documents {

  datatype Option<+T> = None | Some(value: T)

  /** A 12-byte BSON ObjectId, held as the 24 lower-case hex digits that
      `toString()` yields. */
  datatype ObjectId = ObjectId(hex: string)

  /** A stored document: its `_id` and the rest of its fields. */
  datatype Document<D> = Document(id: ObjectId, body: D)

  predicate IsHexDigit(c: char) {
    '0' <= c <= '9' || 'a' <= c <= 'f' || 'A' <= c <= 'F'
  }

  predicate IsLowerHexDigit(c: char) {
    '0' <= c <= '9' || 'a' <= c <= 'f'
  }

  /** The form `toString()` gives an id: exactly 24 lower-case hex digits. */
  predicate IsCanonical(id: ObjectId) {
    |id.hex| == 24 && forall i :: 0 <= i < 24 ==> IsLowerHexDigit(id.hex[i])
  }

  function LowerHexDigit(c: char): (r: char)
    requires IsHexDigit(c)
    ensures IsLowerHexDigit(r)
    ensures IsLowerHexDigit(c) ==> r == c
  {
    if 'A' <= c <= 'F' then (c as int - 'A' as int + 'a' as int) as char else c
  }

  /** `new ObjectId(text)`: the bson library (version 6) accepts a string of
      exactly 24 hex digits in either case, keeps those digits lower-cased,
      and throws on anything else. */
  function ParseObjectId(text: string): (r: Option<ObjectId>)
    ensures r.Some? <==> |text| == 24 && forall i :: 0 <= i < |text| ==> IsHexDigit(text[i])
    ensures r.Some? ==> IsCanonical(r.value)
    ensures r.Some? ==> forall i :: 0 <= i < 24 ==> r.value.hex[i] == LowerHexDigit(text[i])
  {
    if |text| == 24 && forall i :: 0 <= i < |text| ==> IsHexDigit(text[i]) then
      Some(ObjectId(seq(24, i requires 0 <= i < 24 => LowerHexDigit(text[i]))))
    else
      None
  }

  /** The text `toString()` prints for an id parses back to that same id. */
  lemma ParsePrintedId(id: ObjectId)
    requires IsCanonical(id)
    ensures ParseObjectId(id.hex) == Some(id)
  {
    var parsed := seq(24, i requires 0 <= i < 24 => LowerHexDigit(id.hex[i]));
    assert parsed == id.hex;
  }

  /** `texts.map((id) => new ObjectId(id))`: every text becomes an id, or the
      first bad one throws and no id set exists. The `$in` filter built from
      the array only cares which ids it holds, so the result is a set. */
  function ParseObjectIds(texts: seq<string>): (r: Option<set<ObjectId>>)
    ensures r.Some? <==> forall i :: 0 <= i < |texts| ==> ParseObjectId(texts[i]).Some?
    ensures r.Some? ==> forall id :: id in r.value <==>
      exists i :: 0 <= i < |texts| && ParseObjectId(texts[i]) == Some(id)
  {
    if texts == [] then Some({})
    else
      match (ParseObjectId(texts[0]), ParseObjectIds(texts[1..]))
      case (Some(id), Some(rest)) =>
        assert forall j :: 0 < j < |texts| ==> texts[j] == texts[1..][j - 1];
        Some({id} + rest)
      case _ => None
  }

  /** `findOne({field: value})`: the position of the first document, in
      natural order, whose field equals the value. */
  function FindOne<D, K(==)>(docs: seq<Document<D>>, field: D -> K, value: K): (r: Option<nat>)
    ensures r.Some? ==> r.value < |docs| && field(docs[r.value].body) == value
    ensures r.Some? ==> forall j :: 0 <= j < r.value ==> field(docs[j].body) != value
    ensures r.None? <==> forall j :: 0 <= j < |docs| ==> field(docs[j].body) != value
  {
    if docs == [] then None
    else if field(docs[0].body) == value then Some(0)
    else
      match FindOne(docs[1..], field, value)
      case None => None
      case Some(k) => Some(k + 1)
  }

  /** `updateMany(filter, {$set: ...})`, document by document: a selected
      document's body is rewritten, every other document is left as it was;
      no document is added, removed or moved and no `_id` changes. */
  function UpdateMany<D>(docs: seq<Document<D>>, selected: Document<D> -> bool, update: D -> D)
    : (r: seq<Document<D>>)
    ensures |r| == |docs|
    ensures forall i :: 0 <= i < |docs| ==> r[i].id == docs[i].id
    ensures forall i :: 0 <= i < |docs| && selected(docs[i]) ==> r[i].body == update(docs[i].body)
    ensures forall i :: 0 <= i < |docs| && !selected(docs[i]) ==> r[i] == docs[i]
  {
    if docs == [] then []
    else
      var head := if selected(docs[0]) then Document(docs[0].id, update(docs[0].body)) else docs[0];
      [head] + UpdateMany(docs[1..], selected, update)
  }

  /** No two documents share an `_id` (the collection's primary key). */
  ghost predicate IdsUnique<D>(docs: seq<Document<D>>) {
    forall i, j :: 0 <= i < j < |docs| ==> docs[i].id != docs[j].id
  }

  /** No two documents agree on the field. */
  ghost predicate UniqueBy<D, K>(docs: seq<Document<D>>, field: D -> K) {
    forall i, j :: 0 <= i < j < |docs| ==> field(docs[i].body) != field(docs[j].body)
  }

  /** Which document `findOne` picks depends only on the filtered field. */
  lemma {:induction false} FindOneSeesOnlyField<D, K>(docs: seq<Document<D>>, docs': seq<Document<D>>, field: D -> K, value: K)
    requires |docs| == |docs'|
    requires forall i :: 0 <= i < |docs| ==> field(docs[i].body) == field(docs'[i].body)
    ensures FindOne(docs, field, value) == FindOne(docs', field, value)
  {
    if docs != [] {
      assert field(docs[0].body) == field(docs'[0].body);
      FindOneSeesOnlyField(docs[1..], docs'[1..], field, value);
    }
  }

  /** `insertOne` appends: an earlier match still wins, and the new document
      is found only when nothing before it matched. */
  lemma {:induction false} FindOneAfterInsert<D, K>(docs: seq<Document<D>>, doc: Document<D>, field: D -> K, value: K)
    ensures FindOne(docs + [doc], field, value) ==
      if FindOne(docs, field, value).Some? then FindOne(docs, field, value)
      else if field(doc.body) == value then Some(|docs|)
      else None
  {
    if docs != [] {
      assert (docs + [doc])[1..] == docs[1..] + [doc];
      FindOneAfterInsert(docs[1..], doc, field, value);
    }
  }

  /** Under a uniqueness invariant `findOne` finds THE matching document:
      the first match is every match. */
  lemma FindOneUnique<D, K>(docs: seq<Document<D>>, field: D -> K, value: K, i: nat)
    requires UniqueBy(docs, field)
    requires i < |docs| && field(docs[i].body) == value
    ensures FindOne(docs, field, value) == Some(i)
  {
  }
}
