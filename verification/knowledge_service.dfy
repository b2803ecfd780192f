/** The knowledge-base metadata store (engine/services/knowledge_service.py): the
    `databases` table of the metadata file as an insertion-ordered list of
    (kb_id, record) pairs, and the create, delete, update, get and list operations on
    it. The clock and the generated id are parameters; saving to disk and the lock are
    not modelled. */
module KnowledgeService {
  import opened Wrappers
  import opened JsonValue
  import opened Text
  import opened PySlice
  import Seqs

  /** An `HTTPException` the service raises. */
  datatype HttpError = HttpError(status: int, detail: string)

  const NotFound := HttpError(404, "知识库不存在")
  const AlreadyExists := HttpError(400, "知识库已存在")

  type Record = Dict

  /** The `databases` table, in insertion order. */
  type Store = seq<(string, Record)>

  function Ids(store: Store): (ids: seq<string>)
    ensures |ids| == |store| && forall i :: 0 <= i < |store| ==> ids[i] == store[i].0
  {
    seq(|store|, i requires 0 <= i < |store| => store[i].0)
  }

  lemma IdsCons(e: (string, Record), rest: Store)
    ensures Ids([e] + rest) == [e.0] + Ids(rest)
  {
    var a, b := Ids([e] + rest), [e.0] + Ids(rest);
    forall i | 0 <= i < |a| ensures a[i] == b[i] {
      if i > 0 {
        assert ([e] + rest)[i] == rest[i - 1];
      }
    }
  }

  lemma IdsTail(store: Store)
    requires store != []
    ensures Ids(store) == [store[0].0] + Ids(store[1..])
  {
    IdsCons(store[0], store[1..]);
    assert [store[0]] + store[1..] == store;
  }

  /** A Python dictionary holds each key once. */
  predicate UniqueIds(store: Store) {
    forall i, j :: 0 <= i < j < |store| ==> store[i].0 != store[j].0
  }

  /** `databases.get(kb_id)`. */
  function Find(store: Store, id: string): (r: Option<Record>)
    ensures r.Some? <==> id in Ids(store)
    ensures r.Some? ==> (id, r.value) in store
    decreases |store|
  {
    if store == [] then None
    else if store[0].0 == id then Some(store[0].1)
    else
      IdsTail(store);
      Find(store[1..], id)
  }

  /** `_normalize_visibility`: "private" or "public", "private" unless the lower-cased
      value is one of the two. */
  function NormalizeVisibility(value: Option<string>): (r: string)
    ensures r == "private" || r == "public"
    ensures r == "public" <==> value.Some? && Lower(value.value) == "public"
  {
    if value.None? || value.value == "" then "private"
    else
      var normalized := Lower(value.value);
      if normalized != "private" && normalized != "public" then "private"
      else normalized
  }

  /** Normalising a normalised visibility changes nothing. */
  lemma NormalizeVisibilityIdempotent(value: Option<string>)
    ensures NormalizeVisibility(Some(NormalizeVisibility(value))) == NormalizeVisibility(value)
  {
    var v := NormalizeVisibility(value);
    if v == "public" {
      assert Lower(v) == "public";
    } else {
      assert Lower(v) == "private";
    }
  }

  /** A `KnowledgeSummary`. */
  datatype Summary = Summary(
    kbId: string, kbName: Json, description: Json, kbType: Json, visibility: Json,
    owner: Json, tenant: Json, embeddingModel: Json, createdAt: Json)

  /** `_build_summary`. */
  function BuildSummary(id: string, record: Record): (s: Summary)
    ensures s.kbId == id
    ensures "kb_name" in record ==> s.kbName == record["kb_name"]
    ensures "kb_name" !in record ==> s.kbName == JStr("")
    ensures s.description == Lookup(record, "description")
    ensures "kb_type" in record ==> s.kbType == record["kb_type"]
    ensures "kb_type" !in record ==> s.kbType == JStr("milvus")
    ensures "visibility" in record ==> s.visibility == record["visibility"]
    ensures "visibility" !in record ==> s.visibility == JStr("private")
    ensures s.owner == Get(record, "owner", JStr("")) && s.tenant == Get(record, "tenant", JStr(""))
    ensures s.embeddingModel == Get(record, "embedding_model", JStr(""))
    ensures s.createdAt == Get(record, "created_at", JStr(""))
  {
    Summary(id, Get(record, "kb_name", JStr("")), Lookup(record, "description"),
            Get(record, "kb_type", JStr("milvus")), Get(record, "visibility", JStr("private")),
            Get(record, "owner", JStr("")), Get(record, "tenant", JStr("")),
            Get(record, "embedding_model", JStr("")), Get(record, "created_at", JStr("")))
  }

  /** `_get_record`: a missing id and an empty record are both "not found". */
  function GetRecord(store: Store, id: string): (r: Result<Record, HttpError>)
    ensures r.Ok? <==> Find(store, id).Some? && Find(store, id).value != map[]
    ensures r.Ok? ==> r.value == Find(store, id).value
    ensures r.Err? ==> r.error == NotFound
  {
    match Find(store, id)
    case None => Err(NotFound)
    case Some(record) => if record == map[] then Err(NotFound) else Ok(record)
  }

  /** `get_database`. */
  function GetDatabase(store: Store, id: string): (r: Result<Summary, HttpError>)
    ensures r.Ok? <==> GetRecord(store, id).Ok?
    ensures r.Ok? ==> r.value == BuildSummary(id, GetRecord(store, id).value)
    ensures r.Err? ==> r.error == NotFound
  {
    var record :- GetRecord(store, id);
    Ok(BuildSummary(id, record))
  }

  /** A `KnowledgeCreateRequest`. */
  datatype CreateRequest = CreateRequest(
    kbId: Option<string>, kbName: string, owner: string, tenant: string, visibility: string,
    description: Option<string>, embeddingModel: string, vectorStoreConfig: Option<Dict>)

  /** The id a create request gets: its own when non-empty, else the generated one. */
  function NewId(req: CreateRequest, generatedId: string): (id: string)
    ensures req.kbId.Some? && req.kbId.value != "" ==> id == req.kbId.value
    ensures req.kbId.None? || req.kbId.value == "" ==> id == generatedId
  {
    if req.kbId.Some? && req.kbId.value != "" then req.kbId.value else generatedId
  }

  function OptionalText(s: Option<string>): (j: Json)
    ensures s.None? <==> j.JNull?
    ensures s.Some? ==> j == JStr(s.value)
  {
    if s.None? then JNull else JStr(s.value)
  }

  /** The record `create_database` stores. */
  function NewRecord(req: CreateRequest, now: string): (record: Record)
    ensures record.Keys == {"kb_name", "description", "kb_type", "visibility", "owner", "tenant",
                            "embedding_model", "vector_store_config", "created_at"}
    ensures record["kb_type"] == JStr("milvus")
    ensures record["visibility"] == JStr(NormalizeVisibility(Some(req.visibility)))
    ensures record["vector_store_config"] == JObj(if req.vectorStoreConfig.Some? then req.vectorStoreConfig.value else map[])
    ensures record["kb_name"] == JStr(req.kbName) && record["description"] == OptionalText(req.description)
    ensures record["owner"] == JStr(req.owner) && record["tenant"] == JStr(req.tenant)
    ensures record["embedding_model"] == JStr(req.embeddingModel) && record["created_at"] == JStr(now)
  {
    map["kb_name" := JStr(req.kbName),
        "description" := OptionalText(req.description),
        "kb_type" := JStr("milvus"),
        "visibility" := JStr(NormalizeVisibility(Some(req.visibility))),
        "owner" := JStr(req.owner),
        "tenant" := JStr(req.tenant),
        "embedding_model" := JStr(req.embeddingModel),
        "vector_store_config" := JObj(if req.vectorStoreConfig.Some? then req.vectorStoreConfig.value else map[]),
        "created_at" := JStr(now)]
  }

  /** `create_database`: the new table and the summary of the new record. */
  function CreateDatabase(store: Store, req: CreateRequest, generatedId: string, now: string)
    : (r: Result<(Store, Summary), HttpError>)
    ensures r.Err? <==> NewId(req, generatedId) in Ids(store)
    ensures r.Err? ==> r.error == AlreadyExists
    ensures r.Ok? ==> Ids(r.value.0) == Ids(store) + [NewId(req, generatedId)]
    ensures r.Ok? ==> r.value.0[..|store|] == store
    ensures r.Ok? ==> r.value.0[|store|].1 == NewRecord(req, now)
    ensures r.Ok? ==> r.value.1 == BuildSummary(NewId(req, generatedId), NewRecord(req, now))
    ensures r.Ok? && UniqueIds(store) ==> UniqueIds(r.value.0)
  {
    var id := NewId(req, generatedId);
    if id in Ids(store) then Err(AlreadyExists)
    else
      var record := NewRecord(req, now);
      var store' := store + [(id, record)];
      assert Ids(store') == Ids(store) + [id];
      Ok((store', BuildSummary(id, record)))
  }

  lemma {:induction false} FindAppendAbsent(store: Store, id: string, record: Record, k: string)
    requires id !in Ids(store)
    ensures Find(store + [(id, record)], k) == if k == id then Some(record) else Find(store, k)
    decreases |store|
  {
    if store == [] {
      assert store + [(id, record)] == [(id, record)];
    } else {
      assert (store + [(id, record)])[1..] == store[1..] + [(id, record)];
      IdsTail(store);
      FindAppendAbsent(store[1..], id, record, k);
    }
  }

  /** A created knowledge base is there to be read: `get_database` returns the summary
      `create_database` returned, and every other id reads as before. */
  lemma CreateThenGet(store: Store, req: CreateRequest, generatedId: string, now: string, other: string)
    requires CreateDatabase(store, req, generatedId, now).Ok?
    ensures var (store', summary) := CreateDatabase(store, req, generatedId, now).value;
      && GetDatabase(store', summary.kbId) == Ok(summary)
      && (other != summary.kbId ==> GetDatabase(store', other) == GetDatabase(store, other))
  {
    var id := NewId(req, generatedId);
    var record := NewRecord(req, now);
    assert CreateDatabase(store, req, generatedId, now).value.0 == store + [(id, record)];
    FindAppendAbsent(store, id, record, id);
    FindAppendAbsent(store, id, record, other);
  }

  /** The table without `id`; the other entries keep their order, as `dict.pop` keeps
      the insertion order of the remaining keys. */
  function Remove(store: Store, id: string): (r: Store)
    ensures |r| <= |store|
    ensures forall k :: k in Ids(r) <==> k in Ids(store) && k != id
    ensures id !in Ids(store) ==> r == store
    ensures UniqueIds(store) ==>
      forall j :: 0 <= j < |store| && store[j].0 == id ==> r == store[..j] + store[j + 1..]
    decreases |store|
  {
    if store == [] then []
    else
      var rest := Remove(store[1..], id);
      var r := (if store[0].0 == id then [] else [store[0]]) + rest;
      RemoveIds(store, id, rest, r);
      RemoveAt(store, id, rest, r);
      r
  }

  /** The membership step of `Remove`. */
  lemma RemoveIds(store: Store, id: string, rest: Store, r: Store)
    requires store != []
    requires |rest| <= |store[1..]|
    requires forall k :: k in Ids(rest) <==> k in Ids(store[1..]) && k != id
    requires r == (if store[0].0 == id then [] else [store[0]]) + rest
    ensures |r| <= |store|
    ensures forall k :: k in Ids(r) <==> k in Ids(store) && k != id
  {
    IdsTail(store);
    if store[0].0 == id {
      assert r == rest;
    } else {
      IdsCons(store[0], rest);
    }
  }

  /** The order step of `Remove`: dropping the first entry holding `id`, or keeping the
      head and dropping it from the tail. */
  lemma RemoveAt(store: Store, id: string, rest: Store, r: Store)
    requires store != []
    requires id !in Ids(store[1..]) ==> rest == store[1..]
    requires UniqueIds(store[1..]) ==>
      forall j :: 0 <= j < |store[1..]| && store[1..][j].0 == id ==> rest == store[1..][..j] + store[1..][j + 1..]
    requires r == (if store[0].0 == id then [] else [store[0]]) + rest
    ensures id !in Ids(store) ==> r == store
    ensures UniqueIds(store) ==>
      forall j :: 0 <= j < |store| && store[j].0 == id ==> r == store[..j] + store[j + 1..]
  {
    RemoveAbsentStep(store, id, rest, r);
    if UniqueIds(store) {
      UniqueTail(store);
      forall j | 0 <= j < |store| && store[j].0 == id
        ensures r == store[..j] + store[j + 1..]
      {
        if j > 0 {
          assert store[1..][j - 1] == store[j];
        }
        RemoveAtIndex(store, id, rest, r, j);
      }
    }
  }

  lemma RemoveAbsentStep(store: Store, id: string, rest: Store, r: Store)
    requires store != []
    requires id !in Ids(store[1..]) ==> rest == store[1..]
    requires r == (if store[0].0 == id then [] else [store[0]]) + rest
    ensures id !in Ids(store) ==> r == store
  {
    IdsTail(store);
    if id !in Ids(store) {
      assert r == [store[0]] + store[1..];
    }
  }

  lemma RemoveAtIndex(store: Store, id: string, rest: Store, r: Store, j: nat)
    requires UniqueIds(store) && j < |store| && store[j].0 == id
    requires j == 0 ==> rest == store[1..]
    requires j > 0 ==> rest == store[1..][..j - 1] + store[1..][j..]
    requires r == (if store[0].0 == id then [] else [store[0]]) + rest
    ensures r == store[..j] + store[j + 1..]
  {
    if j > 0 {
      assert store[0].0 != id;
      assert store[..j] == [store[0]] + store[1..][..j - 1];
      assert store[j + 1..] == store[1..][j..];
    }
  }

  lemma InIds(store: Store, id: string)
    ensures id in Ids(store) <==> exists r :: (id, r) in store
  {
    if id in Ids(store) {
      var i :| 0 <= i < |store| && Ids(store)[i] == id;
      assert (id, store[i].1) == store[i];
    }
  }

  lemma {:induction false} RemoveFind(store: Store, id: string, k: string)
    ensures Find(Remove(store, id), k) == if k == id then None else Find(store, k)
    decreases |store|
  {
    if store != [] {
      RemoveFind(store[1..], id, k);
      var rest := Remove(store[1..], id);
      if store[0].0 == id {
        assert Remove(store, id) == rest;
        assert k != id ==> Find(store, k) == Find(store[1..], k);
      } else {
        var r := [store[0]] + rest;
        assert Remove(store, id) == r;
        assert r[0] == store[0] && r[1..] == rest;
        if store[0].0 == k {
          assert Find(r, k) == Some(store[0].1) == Find(store, k);
        } else {
          assert Find(r, k) == Find(rest, k);
          assert Find(store, k) == Find(store[1..], k);
        }
      }
    }
  }

  lemma {:induction false} RemoveAbsent(store: Store, id: string)
    requires id !in Ids(store)
    ensures Remove(store, id) == store
    decreases |store|
  {
    if store != [] {
      IdsTail(store);
      RemoveAbsent(store[1..], id);
      assert store == [store[0]] + store[1..];
    }
  }

  lemma UniqueTail(store: Store)
    requires store != [] && UniqueIds(store)
    ensures UniqueIds(store[1..])
    ensures store[0].0 !in Ids(store[1..])
  {
    forall i, j | 0 <= i < j < |store[1..]| ensures store[1..][i].0 != store[1..][j].0 {
      assert store[1..][i] == store[i + 1] && store[1..][j] == store[j + 1];
    }
  }

  lemma RemoveFindOthers(store: Store, id: string)
    ensures forall k :: k != id ==> Find(Remove(store, id), k) == Find(store, k)
  {
    forall k | k != id ensures Find(Remove(store, id), k) == Find(store, k) {
      RemoveFind(store, id, k);
    }
  }

  lemma ConsUnique(e: (string, Record), rest: Store)
    requires UniqueIds(rest) && e.0 !in Ids(rest)
    ensures UniqueIds([e] + rest)
  {
    var r := [e] + rest;
    forall i, j | 0 <= i < j < |r| ensures r[i].0 != r[j].0 {
      assert r[j] == rest[j - 1];
      if i == 0 {
        assert Ids(rest)[j - 1] == r[j].0;
      } else {
        assert r[i] == rest[i - 1];
      }
    }
  }

  lemma {:induction false} RemoveUnique(store: Store, id: string)
    ensures UniqueIds(store) ==> UniqueIds(Remove(store, id))
    decreases |store|
  {
    if store != [] && UniqueIds(store) {
      UniqueTail(store);
      RemoveUnique(store[1..], id);
      var rest := Remove(store[1..], id);
      if store[0].0 != id {
        assert store[0].0 !in Ids(rest);
        ConsUnique(store[0], rest);
        assert [store[0]] + rest == Remove(store, id);
      }
    }
  }

  /** `delete_database`: always "success". */
  function DeleteDatabase(store: Store, id: string): (r: (Store, string))
    ensures r.1 == "success"
    ensures id !in Ids(r.0)
    ensures forall k :: k != id ==> Find(r.0, k) == Find(store, k)
    ensures id !in Ids(store) ==> r.0 == store
    ensures UniqueIds(store) ==> UniqueIds(r.0)
    ensures UniqueIds(store) ==>
      forall j :: 0 <= j < |store| && store[j].0 == id ==> r.0 == store[..j] + store[j + 1..]
  {
    if id !in Ids(store) then (store, "success")
    else
      RemoveFindOthers(store, id);
      InIds(Remove(store, id), id);
      RemoveUnique(store, id);
      (Remove(store, id), "success")
  }

  /** Deleting twice is deleting once, and a deleted knowledge base is not found. */
  lemma DeleteIdempotent(store: Store, id: string)
    ensures DeleteDatabase(DeleteDatabase(store, id).0, id) == DeleteDatabase(store, id)
    ensures GetDatabase(DeleteDatabase(store, id).0, id) == Err(NotFound)
  {
    RemoveAbsent(DeleteDatabase(store, id).0, id);
  }

  /** A `KnowledgeUpdateRequest`. */
  datatype UpdateRequest = UpdateRequest(
    kbId: string, kbName: Option<string>, description: Option<string>, visibility: Option<string>,
    embeddingModel: Option<string>, vectorStoreConfig: Option<Dict>)

  /** Python truthiness of an optional text. */
  predicate Given(s: Option<string>) {
    s.Some? && s.value != ""
  }

  /** The fields `update_database` may overwrite. */
  const Updatable: set<string> := {"kb_name", "description", "visibility", "embedding_model", "vector_store_config"}

  /** `record[key] = v` when there is a value to write. */
  function Overwrite(record: Record, key: string, v: Option<Json>): (r: Record)
    ensures r.Keys >= record.Keys
    ensures key in r <==> key in record || v.Some?
    ensures Lookup(r, key) == if v.Some? then v.value else Lookup(record, key)
    ensures forall k :: k != key ==> (k in r <==> k in record) && Lookup(r, k) == Lookup(record, k)
  {
    if v.Some? then record[key := v.value] else record
  }

  lemma UpdatableDistinct()
    ensures "kb_name" != "description" && "kb_name" != "visibility" && "kb_name" != "embedding_model"
    ensures "kb_name" != "vector_store_config" && "description" != "visibility"
    ensures "description" != "embedding_model" && "description" != "vector_store_config"
    ensures "visibility" != "embedding_model" && "visibility" != "vector_store_config"
    ensures "embedding_model" != "vector_store_config"
  {
    assert "kb_name"[0] == 'k' && "description"[0] == 'd' && "embedding_model"[0] == 'e';
    assert "visibility"[0] == 'v' && "visibility"[1] == 'i';
    assert "vector_store_config"[0] == 'v' && "vector_store_config"[1] == 'e';
  }

  /** The value an update request writes under `key`, if any: the reference reading of
      the five guarded assignments, one key at a time. */
  function Written(req: UpdateRequest, key: string): (r: Option<Json>)
    ensures r.Some? ==> key in Updatable
  {
    if key == "kb_name" then (if Given(req.kbName) then Some(JStr(req.kbName.value)) else None)
    else if key == "description" then (if req.description.Some? then Some(JStr(req.description.value)) else None)
    else if key == "visibility" then (if Given(req.visibility) then Some(JStr(NormalizeVisibility(req.visibility))) else None)
    else if key == "embedding_model" then (if Given(req.embeddingModel) then Some(JStr(req.embeddingModel.value)) else None)
    else if key == "vector_store_config" then (if req.vectorStoreConfig.Some? then Some(JObj(req.vectorStoreConfig.value)) else None)
    else None
  }

  /** The record after the overwrites of `update_database`, applied in the source's
      order. */
  function Apply(record: Record, req: UpdateRequest): (r: Record)
    ensures r.Keys >= record.Keys
  {
    var r1 := Overwrite(record, "kb_name", Written(req, "kb_name"));
    var r2 := Overwrite(r1, "description", Written(req, "description"));
    var r3 := Overwrite(r2, "visibility", Written(req, "visibility"));
    var r4 := Overwrite(r3, "embedding_model", Written(req, "embedding_model"));
    Overwrite(r4, "vector_store_config", Written(req, "vector_store_config"))
  }

  /** Applied one after another, the overwrites leave each key holding what the request
      writes for it, or else what it held: the order of the assignments does not matter. */
  lemma ApplyKey(record: Record, req: UpdateRequest, k: string)
    ensures k in Apply(record, req) <==> k in record || Written(req, k).Some?
    ensures Lookup(Apply(record, req), k) == if Written(req, k).Some? then Written(req, k).value else Lookup(record, k)
  {
    UpdatableDistinct();
    if k == "kb_name" {
    } else if k == "description" {
    } else if k == "visibility" {
    } else if k == "embedding_model" {
    } else if k == "vector_store_config" {
    }
  }

  /** The table with the record under `id` replaced where it stands. */
  function Replace(store: Store, id: string, record: Record): (r: Store)
    ensures Ids(r) == Ids(store)
    ensures id in Ids(store) ==> Find(r, id) == Some(record)
    ensures forall k :: k != id ==> Find(r, k) == Find(store, k)
    decreases |store|
  {
    if store == [] then []
    else
      var rest := Replace(store[1..], id, record);
      var e := if store[0].0 == id then (id, record) else store[0];
      IdsTail(store);
      IdsCons(e, rest);
      var r := [e] + rest;
      assert r[0] == e && r[1..] == rest;
      r
  }

  /** `update_database`. */
  function UpdateDatabase(store: Store, req: UpdateRequest): (r: Result<(Store, Summary), HttpError>)
    ensures r.Err? <==> GetRecord(store, req.kbId).Err?
    ensures r.Err? ==> r.error == NotFound
    ensures r.Ok? ==> Ids(r.value.0) == Ids(store)
    ensures r.Ok? ==> Find(r.value.0, req.kbId) == Some(Apply(Find(store, req.kbId).value, req))
    ensures r.Ok? ==> forall k :: k != req.kbId ==> Find(r.value.0, k) == Find(store, k)
    ensures r.Ok? ==> r.value.1 == BuildSummary(req.kbId, Apply(Find(store, req.kbId).value, req))
  {
    var record :- GetRecord(store, req.kbId);
    var updated := Apply(record, req);
    Ok((Replace(store, req.kbId, updated), BuildSummary(req.kbId, updated)))
  }

  /** The identity fields are not among the updatable ones. */
  lemma FixedFields()
    ensures "kb_type" !in Updatable && "owner" !in Updatable && "tenant" !in Updatable && "created_at" !in Updatable
  {
    assert "kb_type"[3] != "kb_name"[3];
    assert "created_at"[0] != "visibility"[0];
  }

  /** An update leaves every field outside `Updatable` as it was, present or absent. */
  lemma UntouchedField(record: Record, req: UpdateRequest, k: string, default: Json)
    requires k !in Updatable
    ensures k in Apply(record, req) <==> k in record
    ensures Get(Apply(record, req), k, default) == Get(record, k, default)
  {
    ApplyKey(record, req, k);
  }

  /** An update never touches `kb_type`, `owner`, `tenant` or `created_at`, and what
      `get_database` reads afterwards is the summary the update returned. */
  lemma UpdateKeepsIdentity(store: Store, req: UpdateRequest)
    requires UpdateDatabase(store, req).Ok?
    ensures var (store', summary) := UpdateDatabase(store, req).value;
      var before := BuildSummary(req.kbId, Find(store, req.kbId).value);
      && summary.kbType == before.kbType && summary.owner == before.owner
      && summary.tenant == before.tenant && summary.createdAt == before.createdAt
      && GetDatabase(store', req.kbId) == Ok(summary)
  {
    var record := Find(store, req.kbId).value;
    var updated := Apply(record, req);
    FixedFields();
    UntouchedField(record, req, "kb_type", JStr("milvus"));
    UntouchedField(record, req, "owner", JStr(""));
    UntouchedField(record, req, "tenant", JStr(""));
    UntouchedField(record, req, "created_at", JStr(""));
    assert updated != map[] by {
      var k :| k in record;
      assert k in updated;
    }
  }

  /** A `KnowledgeListRequest`. */
  datatype ListRequest = ListRequest(owner: Option<string>, tenant: Option<string>, page: int, size: int)

  /** The filters `list_databases` applies: owner and tenant, each only when given. */
  predicate Matches(record: Record, owner: Option<string>, tenant: Option<string>) {
    && (Given(owner) ==> Lookup(record, "owner") == JStr(owner.value))
    && (Given(tenant) ==> Lookup(record, "tenant") == JStr(tenant.value))
  }

  /** The matching entries, in table order. */
  function Filtered(store: Store, owner: Option<string>, tenant: Option<string>): (r: Store)
    ensures |r| <= |store|
    ensures forall e :: e in r <==> e in store && Matches(e.1, owner, tenant)
    decreases |store|
  {
    if store == [] then []
    else
      var rest := Filtered(store[1..], owner, tenant);
      assert forall e :: e in store <==> e == store[0] || e in store[1..];
      (if Matches(store[0].1, owner, tenant) then [store[0]] else []) + rest
  }

  lemma {:induction false} FilteredAppend(store: Store, more: Store, owner: Option<string>, tenant: Option<string>)
    ensures Filtered(store + more, owner, tenant) == Filtered(store, owner, tenant) + Filtered(more, owner, tenant)
    decreases |store|
  {
    if store == [] {
      assert store + more == more;
    } else {
      assert (store + more)[0] == store[0];
      assert (store + more)[1..] == store[1..] + more;
      FilteredAppend(store[1..], more, owner, tenant);
    }
  }

  /** Where page `page` of size `size` starts: `max((page - 1) * size, 0)`. */
  function PageStart(req: ListRequest): (s: nat)
    ensures s >= (req.page - 1) * req.size
    ensures s == (req.page - 1) * req.size || s == 0
    ensures req.page >= 1 && req.size >= 0 ==> s == (req.page - 1) * req.size
    ensures req.page <= 1 && req.size >= 0 ==> s == 0
  {
    var start := (req.page - 1) * req.size;
    if start > 0 then start else 0
  }

  /** `items[start:start + size]` for a non-negative start. */
  function Page(items: Store, start: nat, size: int): (p: Store)
    ensures |p| <= |items|
    ensures size >= 0 && start <= |items| ==>
      p == items[start..if start + size <= |items| then start + size else |items|]
    ensures size >= 0 && start >= |items| ==> p == []
  {
    Slice(items, start, start + size)
  }

  /** The summaries of some records, one for one. */
  function Summaries(es: Store): (r: seq<Summary>)
    ensures |r| == |es|
    ensures forall i :: 0 <= i < |es| ==> r[i] == BuildSummary(es[i].0, es[i].1)
  {
    seq(|es|, i requires 0 <= i < |es| => BuildSummary(es[i].0, es[i].1))
  }

  /** `list_databases`: one page of summaries and the number of matching records. */
  function ListDatabases(store: Store, req: ListRequest): (r: (seq<Summary>, nat))
    ensures r.1 == |Filtered(store, req.owner, req.tenant)|
    ensures |r.0| <= r.1
    ensures var f := Filtered(store, req.owner, req.tenant);
      req.size >= 0 && PageStart(req) <= |f| ==>
        var n := if PageStart(req) + req.size <= |f| then req.size else |f| - PageStart(req);
        && |r.0| == n
        && forall i :: 0 <= i < n ==> r.0[i] == BuildSummary(f[PageStart(req) + i].0, f[PageStart(req) + i].1)
    ensures req.size >= 0 && PageStart(req) >= |Filtered(store, req.owner, req.tenant)| ==> r.0 == []
  {
    var f := Filtered(store, req.owner, req.tenant);
    (Summaries(Page(f, PageStart(req), req.size)), |f|)
  }

  /** Pages of a positive size split the matching records without gap or overlap: the
      record at position `i` of the filtered table is item `i % size` of page
      `i / size + 1`. */
  lemma PagesPartition(store: Store, owner: Option<string>, tenant: Option<string>, size: int, i: int)
    requires size > 0
    requires 0 <= i < |Filtered(store, owner, tenant)|
    ensures var page := ListDatabases(store, ListRequest(owner, tenant, i / size + 1, size)).0;
      var f := Filtered(store, owner, tenant);
      |page| > i % size && page[i % size] == BuildSummary(f[i].0, f[i].1)
  {
    var req := ListRequest(owner, tenant, i / size + 1, size);
    PageOfIndex(req, i);
    PageItem(store, req, i % size, i);
  }

  /** Item `m` of a page is the record `m` places after the page start. */
  lemma PageItem(store: Store, req: ListRequest, m: nat, i: nat)
    requires 0 <= m < req.size && PageStart(req) + m == i < |Filtered(store, req.owner, req.tenant)|
    ensures var f := Filtered(store, req.owner, req.tenant);
      |ListDatabases(store, req).0| > m && ListDatabases(store, req).0[m] == BuildSummary(f[i].0, f[i].1)
  {
    var f := Filtered(store, req.owner, req.tenant);
    PageSlot(f, PageStart(req), req.size, m);
    assert ListDatabases(store, req).0 == Summaries(Page(f, PageStart(req), req.size));
  }

  lemma PageSlot(items: Store, start: nat, size: int, m: nat)
    requires m < size && start + m < |items|
    ensures |Page(items, start, size)| > m && Page(items, start, size)[m] == items[start + m]
  {
    var end := if start + size <= |items| then start + size else |items|;
    assert Page(items, start, size) == items[start..end];
    Seqs.SliceIndex(items, start, end, m);
  }

  /** Page `i / size + 1` starts `i % size` items before item `i`. */
  lemma PageOfIndex(req: ListRequest, i: nat)
    requires req.size > 0 && req.page == i / req.size + 1
    ensures PageStart(req) == i - i % req.size && 0 <= i % req.size < req.size
  {
    var q, m := i / req.size, i % req.size;
    DivMod(i, req.size);
    assert req.page - 1 == q;
    assert (req.page - 1) * req.size == q * req.size == i - m;
  }

  lemma DivMod(i: nat, size: int)
    requires size > 0
    ensures (i / size + 1 - 1) * size == (i / size) * size >= 0
    ensures (i / size) * size + i % size == i && 0 <= i % size < size
  {
  }

  /** A new knowledge base is counted by a listing that filters on its owner. */
  lemma CreateCountsForOwner(store: Store, req: CreateRequest, generatedId: string, now: string, size: int)
    requires CreateDatabase(store, req, generatedId, now).Ok?
    ensures var query := ListRequest(Some(req.owner), None, 1, size);
      ListDatabases(CreateDatabase(store, req, generatedId, now).value.0, query).1
        == ListDatabases(store, query).1 + 1
  {
    var entry := (NewId(req, generatedId), NewRecord(req, now));
    assert CreateDatabase(store, req, generatedId, now).value.0 == store + [entry];
    FilteredAppend(store, [entry], Some(req.owner), None);
    assert Matches(entry.1, Some(req.owner), None);
    assert Filtered([entry], Some(req.owner), None) == [entry] by {
      assert [entry][1..] == [];
    }
  }
}
