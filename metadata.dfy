/**
 * The custom-field metadata synchroniser `saveCustomFieldsMetaDataByMapping`
 * (src/ResidentParser.ts:398-558), an entity-attribute-value upsert run once for units and once
 * for users. For each record that resolves to an object and each configured field that matches a
 * stored custom field, the stored row keyed by (entity, object, field) is inserted when absent and
 * has its value updated when it differs from the record's value.
 */
module MetaSync {
  import opened Wrappers
  import opened Records

  /** What one pass reads: the entity, its configured and stored fields, the stored rows, and the object lookup. */
  datatype MetaEnv = MetaEnv(
    entity: int,
    defined: seq<DefinedField>,
    customFields: seq<CustomField>,
    stored: seq<MetaData>,
    resolve: FeedRecord -> Option<int>)

  /** `mUser[map_inputfield] ?? ''`. */
  function FieldValue(j: FeedRecord, d: DefinedField): string {
    if d.inputField in j.fields then j.fields[d.inputField] else ""
  }

  /** A stored custom field answers a configured one: same entity, field type and tag label. */
  predicate FieldMatches(cf: CustomField, d: DefinedField) {
    cf.entity == d.entity && cf.fieldType == d.fieldType && cf.tag == d.tag
  }

  /** `customFields.find(...)`: the stored custom field matching a configured one. */
  function MatchField(cfs: seq<CustomField>, d: DefinedField): (r: Option<CustomField>)
    ensures r.Some? ==> r.value in cfs && FieldMatches(r.value, d)
    ensures r.None? <==> forall cf :: cf in cfs ==> !FieldMatches(cf, d)
  {
    if cfs == [] then None
    else if FieldMatches(cfs[0], d) then Some(cfs[0])
    else
      assert forall cf :: cf in cfs <==> cf == cfs[0] || cf in cfs[1..];
      MatchField(cfs[1..], d)
  }

  /** The field `MatchField` returns is the first matching one, as `find` returns. */
  lemma {:induction false} MatchFieldFirst(cfs: seq<CustomField>, d: DefinedField)
    ensures MatchField(cfs, d).Some? ==>
      exists i :: 0 <= i < |cfs| && cfs[i] == MatchField(cfs, d).value && forall k :: 0 <= k < i ==> !FieldMatches(cfs[k], d)
  {
    if cfs != [] && !FieldMatches(cfs[0], d) && MatchField(cfs[1..], d).Some? {
      MatchFieldFirst(cfs[1..], d);
      var i :| 0 <= i < |cfs[1..]| && cfs[1..][i] == MatchField(cfs[1..], d).value
        && forall k :: 0 <= k < i ==> !FieldMatches(cfs[1..][k], d);
      assert cfs[i + 1] == MatchField(cfs, d).value;
      assert forall k :: 0 <= k < i + 1 ==> !FieldMatches(cfs[k], d) by {
        forall k | 0 <= k < i + 1 ensures !FieldMatches(cfs[k], d) {
          if k > 0 { assert cfs[k] == cfs[1..][k - 1]; }
        }
      }
    } else if cfs != [] && FieldMatches(cfs[0], d) {
      assert cfs[0] == MatchField(cfs, d).value;
    }
  }

  /** The first stored row of (entity, object, field). */
  function StoredRow(meta: seq<MetaData>, entity: int, obj: int, field: int): (r: Option<MetaData>)
    ensures r.Some? ==> r.value in meta && r.value.entity == entity && r.value.objectId == obj && r.value.field == field
    ensures r.None? <==> forall m :: m in meta ==> !(m.entity == entity && m.objectId == obj && m.field == field)
  {
    if meta == [] then None
    else if meta[0].entity == entity && meta[0].objectId == obj && meta[0].field == field then Some(meta[0])
    else StoredRow(meta[1..], entity, obj, field)
  }

  /** The row a record asks for under a configured field: its object, the matched field id and its value. */
  function Wanted(e: MetaEnv, j: FeedRecord, d: DefinedField): Option<MetaData> {
    match e.resolve(j)
    case None => None
    case Some(obj) =>
      match MatchField(e.customFields, d)
      case None => None
      case Some(cf) => Some(MetaData(0, e.entity, obj, cf.id, FieldValue(j, d)))
  }

  /** The stored row the wanted row is compared with. */
  function Existing(e: MetaEnv, w: MetaData): Option<MetaData> {
    StoredRow(e.stored, e.entity, w.objectId, w.field)
  }

  predicate NeedsInsert(e: MetaEnv, j: FeedRecord, d: DefinedField) {
    Wanted(e, j, d).Some? && Existing(e, Wanted(e, j, d).value).None?
  }

  predicate NeedsUpdate(e: MetaEnv, j: FeedRecord, d: DefinedField) {
    Wanted(e, j, d).Some? && Existing(e, Wanted(e, j, d).value).Some?
      && Existing(e, Wanted(e, j, d).value).value.value != Wanted(e, j, d).value.value
  }

  /** The update entry: the stored row with only its value replaced. */
  function UpdateOf(e: MetaEnv, j: FeedRecord, d: DefinedField): MetaData
    requires NeedsUpdate(e, j, d)
  {
    Existing(e, Wanted(e, j, d).value).value.(value := Wanted(e, j, d).value.value)
  }

  datatype Queue = Queue(adds: seq<MetaData>, ups: seq<MetaData>)

  /** One configured field of one record (src/ResidentParser.ts:444-473 and 511-540). */
  function FieldStep(e: MetaEnv, q: Queue, j: FeedRecord, d: DefinedField): Queue {
    match Wanted(e, j, d)
    case None => q
    case Some(w) =>
      match Existing(e, w)
      case Some(m) =>
        if m.value != w.value then Queue(q.adds, q.ups + [MetaData(m.id, e.entity, w.objectId, w.field, w.value)]) else q
      case None => Queue(q.adds + [w], q.ups)
  }

  /** The inner loop over the configured fields `ds`. */
  function Fields(e: MetaEnv, q: Queue, j: FeedRecord, ds: seq<DefinedField>): Queue {
    if ds == [] then q else FieldStep(e, Fields(e, q, j, ds[..|ds| - 1]), j, ds[|ds| - 1])
  }

  /** The outer loop over the records `rs`; an unresolved record contributes nothing. */
  function Collect(e: MetaEnv, rs: seq<FeedRecord>): Queue {
    if rs == [] then Queue([], [])
    else
      var q := Collect(e, rs[..|rs| - 1]);
      var j := rs[|rs| - 1];
      if e.resolve(j).None? then q else Fields(e, q, j, e.defined)
  }

  method StageMetaData(e: MetaEnv, rs: seq<FeedRecord>) returns (adds: seq<MetaData>, ups: seq<MetaData>)
    ensures Queue(adds, ups) == Collect(e, rs)
  {
    adds, ups := [], [];
    var i := 0;
    while i < |rs|
      invariant 0 <= i <= |rs|
      invariant Queue(adds, ups) == Collect(e, rs[..i])
    {
      assert rs[..i + 1][..i] == rs[..i];
      var j := rs[i];
      var obj := e.resolve(j);
      if obj.Some? {
        ghost var q0 := Queue(adds, ups);
        var k := 0;
        while k < |e.defined|
          invariant 0 <= k <= |e.defined|
          invariant Queue(adds, ups) == Fields(e, q0, j, e.defined[..k])
        {
          assert e.defined[..k + 1][..k] == e.defined[..k];
          var d := e.defined[k];
          var cf := MatchField(e.customFields, d);
          if cf.Some? {
            var value := FieldValue(j, d);
            var found := StoredRow(e.stored, e.entity, obj.value, cf.value.id);
            if found.Some? {
              if found.value.value != value {
                ups := ups + [MetaData(found.value.id, e.entity, obj.value, cf.value.id, value)];
              }
            } else {
              adds := adds + [MetaData(0, e.entity, obj.value, cf.value.id, value)];
            }
          }
          k := k + 1;
        }
        assert e.defined[..|e.defined|] == e.defined;
      }
      i := i + 1;
    }
    assert rs[..|rs|] == rs;
  }

  /** One configured field queues its insert, its update, or nothing. */
  lemma FieldStepShape(e: MetaEnv, p: Queue, j: FeedRecord, d: DefinedField)
    ensures NeedsInsert(e, j, d) ==> !NeedsUpdate(e, j, d) && FieldStep(e, p, j, d) == Queue(p.adds + [Wanted(e, j, d).value], p.ups)
    ensures NeedsUpdate(e, j, d) ==> FieldStep(e, p, j, d) == Queue(p.adds, p.ups + [UpdateOf(e, j, d)])
    ensures !NeedsInsert(e, j, d) && !NeedsUpdate(e, j, d) ==> FieldStep(e, p, j, d) == p
  {
    if NeedsUpdate(e, j, d) {
      var w := Wanted(e, j, d).value;
      var m := Existing(e, w).value;
      assert MetaData(m.id, e.entity, w.objectId, w.field, w.value) == UpdateOf(e, j, d);
    }
  }

  /** A queue extended by the inner loop keeps what it held and gains the rows of `j` under `ds`. */
  lemma {:induction false} FieldsExact(e: MetaEnv, q: Queue, j: FeedRecord, ds: seq<DefinedField>)
    ensures var r := Fields(e, q, j, ds);
      && (forall m :: m in r.adds <==> m in q.adds || exists d :: d in ds && NeedsInsert(e, j, d) && m == Wanted(e, j, d).value)
      && (forall m :: m in r.ups <==> m in q.ups || exists d :: d in ds && NeedsUpdate(e, j, d) && m == UpdateOf(e, j, d))
  {
    if ds != [] {
      var init := ds[..|ds| - 1];
      var d := ds[|ds| - 1];
      FieldsExact(e, q, j, init);
      assert forall x :: x in ds <==> x in init || x == d;
      var p := Fields(e, q, j, init);
      var r := Fields(e, q, j, ds);
      FieldStepShape(e, p, j, d);
      forall m ensures m in r.adds <==> m in q.adds || exists x :: x in ds && NeedsInsert(e, j, x) && m == Wanted(e, j, x).value {
        if m in r.adds && m !in p.adds {
          assert NeedsInsert(e, j, d) && m == Wanted(e, j, d).value;
        }
        if exists x :: x in ds && NeedsInsert(e, j, x) && m == Wanted(e, j, x).value {
          var x :| x in ds && NeedsInsert(e, j, x) && m == Wanted(e, j, x).value;
          if x in init {
            assert m in p.adds;
          }
        }
      }
      forall m ensures m in r.ups <==> m in q.ups || exists x :: x in ds && NeedsUpdate(e, j, x) && m == UpdateOf(e, j, x) {
        if m in r.ups && m !in p.ups {
          assert NeedsUpdate(e, j, d) && m == UpdateOf(e, j, d);
        }
        if exists x :: x in ds && NeedsUpdate(e, j, x) && m == UpdateOf(e, j, x) {
          var x :| x in ds && NeedsUpdate(e, j, x) && m == UpdateOf(e, j, x);
          if x in init {
            assert m in p.ups;
          }
        }
      }
    }
  }

  /** Some record of `rs` asks for the row `m` under a configured field, and no row of its key is stored. */
  predicate Inserts(e: MetaEnv, rs: seq<FeedRecord>, m: MetaData) {
    exists j, d :: j in rs && d in e.defined && NeedsInsert(e, j, d) && m == Wanted(e, j, d).value
  }

  /** Some record of `rs` gives the stored row of a key a new value, and `m` is that row so changed. */
  predicate Updates(e: MetaEnv, rs: seq<FeedRecord>, m: MetaData) {
    exists j, d :: j in rs && d in e.defined && NeedsUpdate(e, j, d) && m == UpdateOf(e, j, d)
  }

  /**
   * Exactly the wanted rows of the batch that have no stored row are queued for insertion, and
   * exactly the stored rows whose value differs from a record's value are queued for update,
   * with only their value changed.
   */
  lemma {:induction false} CollectExact(e: MetaEnv, rs: seq<FeedRecord>)
    ensures forall m :: m in Collect(e, rs).adds <==> Inserts(e, rs, m)
    ensures forall m :: m in Collect(e, rs).ups <==> Updates(e, rs, m)
  {
    CollectAddsExact(e, rs);
    CollectUpsExact(e, rs);
  }

  lemma {:induction false} CollectAddsExact(e: MetaEnv, rs: seq<FeedRecord>)
    ensures forall m :: m in Collect(e, rs).adds <==> Inserts(e, rs, m)
  {
    if rs != [] {
      var init := rs[..|rs| - 1];
      var j := rs[|rs| - 1];
      CollectAddsExact(e, init);
      var p := Collect(e, init);
      var q := Collect(e, rs);
      if e.resolve(j).Some? {
        FieldsExact(e, p, j, e.defined);
      } else {
        assert q == p;
      }
      forall m ensures m in q.adds <==> Inserts(e, rs, m) {
        if m in q.adds {
          if m in p.adds {
            var j', d :| j' in init && d in e.defined && NeedsInsert(e, j', d) && m == Wanted(e, j', d).value;
            assert j' in rs;
          } else {
            var d :| d in e.defined && NeedsInsert(e, j, d) && m == Wanted(e, j, d).value;
          }
        }
        if Inserts(e, rs, m) {
          var j', d :| j' in rs && d in e.defined && NeedsInsert(e, j', d) && m == Wanted(e, j', d).value;
          if j' in init {
            assert Inserts(e, init, m);
          } else {
            assert j' == j;
          }
        }
      }
    }
  }

  lemma {:induction false} CollectUpsExact(e: MetaEnv, rs: seq<FeedRecord>)
    ensures forall m :: m in Collect(e, rs).ups <==> Updates(e, rs, m)
  {
    if rs != [] {
      var init := rs[..|rs| - 1];
      var j := rs[|rs| - 1];
      CollectUpsExact(e, init);
      var p := Collect(e, init);
      var q := Collect(e, rs);
      if e.resolve(j).Some? {
        FieldsExact(e, p, j, e.defined);
      } else {
        assert q == p;
      }
      forall m ensures m in q.ups <==> Updates(e, rs, m) {
        if m in q.ups {
          if m in p.ups {
            var j', d :| j' in init && d in e.defined && NeedsUpdate(e, j', d) && m == UpdateOf(e, j', d);
            assert j' in rs;
          } else {
            var d :| d in e.defined && NeedsUpdate(e, j, d) && m == UpdateOf(e, j, d);
          }
        }
        if Updates(e, rs, m) {
          var j', d :| j' in rs && d in e.defined && NeedsUpdate(e, j', d) && m == UpdateOf(e, j', d);
          if j' in init {
            assert Updates(e, init, m);
          } else {
            assert j' == j;
          }
        }
      }
    }
  }


  /** Every update entry addresses a stored row and differs from it in the value column only. */
  lemma UpdatesChangeValueOnly(e: MetaEnv, rs: seq<FeedRecord>)
    ensures forall m :: m in Collect(e, rs).ups ==>
      exists row :: row in e.stored && row.id == m.id && m == row.(value := m.value) && row.value != m.value
  {
    CollectExact(e, rs);
    forall m | m in Collect(e, rs).ups
      ensures exists row :: row in e.stored && row.id == m.id && m == row.(value := m.value) && row.value != m.value
    {
      var j, d :| j in rs && d in e.defined && NeedsUpdate(e, j, d) && m == UpdateOf(e, j, d);
      var row := Existing(e, Wanted(e, j, d).value).value;
      assert row in e.stored;
    }
  }

  /** Every wanted row of the batch is stored, holding the record's value. */
  predicate UpToDate(e: MetaEnv, rs: seq<FeedRecord>) {
    forall j, d :: j in rs && d in e.defined && Wanted(e, j, d).Some? ==>
      Existing(e, Wanted(e, j, d).value).Some? && Existing(e, Wanted(e, j, d).value).value.value == Wanted(e, j, d).value.value
  }

  /** A field of a batch record that needs a write has that write queued. */
  lemma QueuedWhenNeeded(e: MetaEnv, rs: seq<FeedRecord>, j: FeedRecord, d: DefinedField)
    ensures j in rs && d in e.defined && NeedsInsert(e, j, d) ==> Wanted(e, j, d).value in Collect(e, rs).adds
    ensures j in rs && d in e.defined && NeedsUpdate(e, j, d) ==> UpdateOf(e, j, d) in Collect(e, rs).ups
  {
    CollectExact(e, rs);
    if j in rs && d in e.defined && NeedsInsert(e, j, d) {
      assert Inserts(e, rs, Wanted(e, j, d).value);
    }
    if j in rs && d in e.defined && NeedsUpdate(e, j, d) {
      assert Updates(e, rs, UpdateOf(e, j, d));
    }
  }

  /**
   * The pass queues nothing exactly when every wanted row of the batch is already stored with the
   * record's value.
   */
  lemma NothingQueuedIffUpToDate(e: MetaEnv, rs: seq<FeedRecord>)
    ensures Collect(e, rs) == Queue([], []) <==> UpToDate(e, rs)
  {
    CollectExact(e, rs);
    var q := Collect(e, rs);
    if q.adds != [] {
      assert q.adds[0] in q.adds;
      var j, d :| j in rs && d in e.defined && NeedsInsert(e, j, d) && q.adds[0] == Wanted(e, j, d).value;
      assert !UpToDate(e, rs);
    }
    if q.ups != [] {
      assert q.ups[0] in q.ups;
      var j, d :| j in rs && d in e.defined && NeedsUpdate(e, j, d) && q.ups[0] == UpdateOf(e, j, d);
      assert !UpToDate(e, rs);
    }
    if q == Queue([], []) {
      forall j, d | j in rs && d in e.defined && Wanted(e, j, d).Some?
        ensures Existing(e, Wanted(e, j, d).value).Some? && Existing(e, Wanted(e, j, d).value).value.value == Wanted(e, j, d).value.value
      {
        QueuedWhenNeeded(e, rs, j, d);
      }
    }
  }
}
