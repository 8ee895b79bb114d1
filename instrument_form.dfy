/**
 * The multipart body the admin instrument calls send: `buildInstrumentFormData`
 * appends the payload's four fields and, when a file is chosen, the image;
 * `updateInstrument` then appends the `_method=PUT` override. A `FormData` is
 * an ordered list of key/value entries.
 */
module InstrumentForm {
  import opened Wrappers
  import opened Types

  /** A file picked in the browser; the client never looks inside it. */
  datatype FileRef = FileRef(name: string, size: nat)

  /** A form value: a string, or a file part. */
  datatype FormValue = Text(text: string) | Blob(file: FileRef)

  datatype Entry = Entry(key: string, value: FormValue)

  /** The browser's `FormData`: entries in the order they were appended. */
  class FormData {
    var entries: seq<Entry>

    constructor ()
      ensures entries == []
    {
      entries := [];
    }

    /** `form.append(key, value)`: duplicates are kept, the new entry goes last. */
    method Append(key: string, value: FormValue)
      modifies this
      ensures entries == old(entries) + [Entry(key, value)]
    {
      entries := entries + [Entry(key, value)];
    }
  }

  // ---------------------------------------------------------------------------
  // The entry sequences, as values
  // ---------------------------------------------------------------------------

  /** The entries `buildInstrumentFormData(payload, file)` produces. */
  function InstrumentFields(p: InstrumentPayload, file: Option<FileRef>): seq<Entry> {
    [ Entry("name", Text(p.name)),
      Entry("description", Text(p.description)),
      Entry("type", Text(InstrumentTypeName(p.kind))),
      Entry("status", Text(InstrumentStatusName(p.status))) ]
    + (if file.Some? then [Entry("image", Blob(file.value))] else [])
  }

  /** The entries `createInstrument` sends: it always has a file. */
  function CreateFields(p: InstrumentPayload, file: FileRef): seq<Entry> {
    InstrumentFields(p, Some(file))
  }

  /** The entries `updateInstrument` sends: the built form plus the method override. */
  function UpdateFields(p: InstrumentPayload, file: Option<FileRef>): seq<Entry> {
    InstrumentFields(p, file) + [Entry("_method", Text("PUT"))]
  }

  predicate HasKey(entries: seq<Entry>, key: string) {
    exists i :: 0 <= i < |entries| && entries[i].key == key
  }

  /** `form.get(key)`: the value of the first entry under `key`, if any. */
  function Get(entries: seq<Entry>, key: string): Option<FormValue> {
    if entries == [] then None
    else if entries[0].key == key then Some(entries[0].value)
    else Get(entries[1..], key)
  }

  /** `get` finds a value exactly when some entry has the key, and the value is that of the first such entry. */
  lemma {:induction false} GetSpec(entries: seq<Entry>, key: string)
    ensures Get(entries, key).Some? <==> HasKey(entries, key)
    ensures Get(entries, key).Some? ==>
              exists i :: 0 <= i < |entries| && entries[i] == Entry(key, Get(entries, key).value)
                && forall j :: 0 <= j < i ==> entries[j].key != key
  {
    if entries != [] && entries[0].key != key {
      var rest := entries[1..];
      GetSpec(rest, key);
      assert forall i :: 0 <= i < |rest| ==> rest[i] == entries[i + 1];
      if HasKey(entries, key) {
        var i :| 0 <= i < |entries| && entries[i].key == key;
        assert rest[i - 1].key == key;
      }
      if Get(rest, key).Some? {
        var i :| 0 <= i < |rest| && rest[i] == Entry(key, Get(rest, key).value)
          && forall j :: 0 <= j < i ==> rest[j].key != key;
        assert entries[i + 1] == Entry(key, Get(entries, key).value);
        assert forall j :: 0 <= j < i + 1 ==> entries[j].key != key by {
          forall j | 0 <= j < i + 1 ensures entries[j].key != key {
            if j > 0 { assert entries[j] == rest[j - 1]; }
          }
        }
      }
    }
  }

  // ---------------------------------------------------------------------------
  // Reading the form back, as the backend would
  // ---------------------------------------------------------------------------

  function ParseInstrumentType(s: string): (t: Option<InstrumentType>)
    ensures t.Some? ==> InstrumentTypeName(t.value) == s
  {
    if s == "STRING" then Some(StringFamily)
    else if s == "WIND" then Some(Wind)
    else if s == "PERCUSSION" then Some(Percussion)
    else if s == "KEYBOARD" then Some(Keyboard)
    else None
  }

  function ParseInstrumentStatus(s: string): (t: Option<InstrumentStatus>)
    ensures t.Some? ==> InstrumentStatusName(t.value) == s
  {
    if s == "AVAILABLE" then Some(Available)
    else if s == "OUT_OF_STOCK" then Some(OutOfStock)
    else if s == "MAINTENANCE" then Some(Maintenance)
    else None
  }

  lemma InstrumentTypeNameRoundTrip(t: InstrumentType)
    ensures ParseInstrumentType(InstrumentTypeName(t)) == Some(t)
  {
  }

  lemma InstrumentStatusNameRoundTrip(s: InstrumentStatus)
    ensures ParseInstrumentStatus(InstrumentStatusName(s)) == Some(s)
  {
  }

  function TextOf(v: Option<FormValue>): Option<string> {
    if v.Some? && v.value.Text? then Some(v.value.text) else None
  }

  function FileOf(v: Option<FormValue>): Option<FileRef> {
    if v.Some? && v.value.Blob? then Some(v.value.file) else None
  }

  /** The payload and file a receiver reads back from the entries by key, when all four fields parse. */
  function ReadInstrument(entries: seq<Entry>): Option<(InstrumentPayload, Option<FileRef>)> {
    var name := TextOf(Get(entries, "name"));
    var description := TextOf(Get(entries, "description"));
    var kind := TextOf(Get(entries, "type"));
    var status := TextOf(Get(entries, "status"));
    if name.None? || description.None? || kind.None? || status.None? then None
    else
      var t := ParseInstrumentType(kind.value);
      var s := ParseInstrumentStatus(status.value);
      if t.None? || s.None? then None
      else Some((InstrumentPayload(name.value, description.value, t.value, s.value), FileOf(Get(entries, "image"))))
  }

  // ---------------------------------------------------------------------------
  // Properties of the entry sequences
  // ---------------------------------------------------------------------------

  /**
   * The built form starts with name, description, type and status carrying the
   * payload's values, and has an image entry (fifth, last) iff a file is given.
   */
  lemma InstrumentFieldsShape(p: InstrumentPayload, file: Option<FileRef>)
    ensures var r := InstrumentFields(p, file);
      && |r| == (if file.Some? then 5 else 4)
      && r[0] == Entry("name", Text(p.name))
      && r[1] == Entry("description", Text(p.description))
      && r[2] == Entry("type", Text(InstrumentTypeName(p.kind)))
      && r[3] == Entry("status", Text(InstrumentStatusName(p.status)))
      && (HasKey(r, "image") <==> file.Some?)
      && (file.Some? ==> r[4] == Entry("image", Blob(file.value)))
  {
    var r := InstrumentFields(p, file);
    if file.Some? {
      assert r[4].key == "image";
    } else {
      assert forall i :: 0 <= i < |r| ==> r[i].key != "image" by {
        assert r[0].key == "name" && r[1].key == "description";
        assert r[2].key == "type" && r[3].key == "status";
      }
    }
  }

  /** `updateInstrument` ends with `_method=PUT`, after any image, and has no other `_method` entry. */
  lemma UpdateEndsWithMethodOverride(p: InstrumentPayload, file: Option<FileRef>)
    ensures var r := UpdateFields(p, file);
      && |r| == |InstrumentFields(p, file)| + 1
      && r[..|r| - 1] == InstrumentFields(p, file)
      && r[|r| - 1] == Entry("_method", Text("PUT"))
      && (forall i :: 0 <= i < |r| - 1 ==> r[i].key != "_method")
      && (file.Some? ==> r[4] == Entry("image", Blob(file.value)) && |r| == 6)
  {
    var f := InstrumentFields(p, file);
    var r := UpdateFields(p, file);
    InstrumentFieldsShape(p, file);
    assert r[..|r| - 1] == f;
    assert forall i :: 0 <= i < |f| ==> r[i] == f[i];
  }

  /** `createInstrument` always sends the image and never the method override. */
  lemma CreateHasImageNoOverride(p: InstrumentPayload, file: FileRef)
    ensures HasKey(CreateFields(p, file), "image")
    ensures !HasKey(CreateFields(p, file), "_method")
    ensures |CreateFields(p, file)| == 5
  {
    InstrumentFieldsShape(p, Some(file));
    var r := CreateFields(p, file);
    assert r[0].key == "name" && r[1].key == "description";
    assert r[2].key == "type" && r[3].key == "status" && r[4].key == "image";
  }

  /** A lookup passes over a leading entry under another key. */
  lemma GetSkip(e: Entry, rest: seq<Entry>, key: string)
    requires e.key != key
    ensures Get([e] + rest, key) == Get(rest, key)
  {
    assert ([e] + rest)[1..] == rest;
  }

  /** Each of the four leading fields is found by key; any other key is looked up in what follows. */
  lemma LeadingLookups(p: InstrumentPayload, tail: seq<Entry>)
    ensures var r := InstrumentFields(p, None) + tail;
      && Get(r, "name") == Some(Text(p.name))
      && Get(r, "description") == Some(Text(p.description))
      && Get(r, "type") == Some(Text(InstrumentTypeName(p.kind)))
      && Get(r, "status") == Some(Text(InstrumentStatusName(p.status)))
      && Get(r, "image") == Get(tail, "image")
  {
    var n, d := Entry("name", Text(p.name)), Entry("description", Text(p.description));
    var t, s := Entry("type", Text(InstrumentTypeName(p.kind))), Entry("status", Text(InstrumentStatusName(p.status)));
    var r4 := [s] + tail;
    var r3 := [t] + r4;
    var r2 := [d] + r3;
    var r := [n] + r2;
    assert InstrumentFields(p, None) + tail == r;
    GetSkip(n, r2, "description");
    GetSkip(n, r2, "type");
    GetSkip(d, r3, "type");
    GetSkip(n, r2, "status");
    GetSkip(d, r3, "status");
    GetSkip(t, r4, "status");
    GetSkip(n, r2, "image");
    GetSkip(d, r3, "image");
    GetSkip(t, r4, "image");
    GetSkip(s, tail, "image");
  }

  /**
   * The four instrument fields followed by any entries read back as the
   * payload, with the file found under `image` in what follows.
   */
  lemma ReadBackFields(p: InstrumentPayload, tail: seq<Entry>)
    ensures ReadInstrument(InstrumentFields(p, None) + tail) == Some((p, FileOf(Get(tail, "image"))))
  {
    LeadingLookups(p, tail);
    InstrumentTypeNameRoundTrip(p.kind);
    InstrumentStatusNameRoundTrip(p.status);
  }

  /** Reading the built form back by key gives the payload and the file it was built from. */
  lemma InstrumentFieldsReadBack(p: InstrumentPayload, file: Option<FileRef>)
    ensures ReadInstrument(InstrumentFields(p, file)) == Some((p, file))
  {
    var tail := if file.Some? then [Entry("image", Blob(file.value))] else [];
    assert InstrumentFields(p, file) == InstrumentFields(p, None) + tail;
    ReadBackFields(p, tail);
  }

  /** The update's override is invisible to a reader of the instrument fields. */
  lemma UpdateFieldsReadBack(p: InstrumentPayload, file: Option<FileRef>)
    ensures ReadInstrument(UpdateFields(p, file)) == Some((p, file))
  {
    var m := Entry("_method", Text("PUT"));
    var tail := (if file.Some? then [Entry("image", Blob(file.value))] else []) + [m];
    assert UpdateFields(p, file) == InstrumentFields(p, None) + tail;
    ReadBackFields(p, tail);
    if file.Some? {
      assert tail == [Entry("image", Blob(file.value)), m];
    } else {
      assert tail == [m] + [];
      GetSkip(m, [], "image");
    }
  }

  // ---------------------------------------------------------------------------
  // The service functions, appending to a FormData
  // ---------------------------------------------------------------------------

  /** `buildInstrumentFormData(payload, file)`. */
  method BuildInstrumentFormData(p: InstrumentPayload, file: Option<FileRef>) returns (form: FormData)
    ensures fresh(form)
    ensures form.entries == InstrumentFields(p, file)
  {
    form := new FormData();
    form.Append("name", Text(p.name));
    form.Append("description", Text(p.description));
    form.Append("type", Text(InstrumentTypeName(p.kind)));
    form.Append("status", Text(InstrumentStatusName(p.status)));
    if file.Some? {
      form.Append("image", Blob(file.value));
    }
  }

  /** The body `createInstrument(payload, file)` posts. */
  method CreateInstrumentForm(p: InstrumentPayload, file: FileRef) returns (form: FormData)
    ensures fresh(form)
    ensures form.entries == CreateFields(p, file)
  {
    form := BuildInstrumentFormData(p, Some(file));
  }

  /** The body `updateInstrument(id, payload, file)` posts. */
  method UpdateInstrumentForm(p: InstrumentPayload, file: Option<FileRef>) returns (form: FormData)
    ensures fresh(form)
    ensures form.entries == UpdateFields(p, file)
  {
    form := BuildInstrumentFormData(p, file);
    form.Append("_method", Text("PUT"));
  }
}
