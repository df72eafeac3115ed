/**
 * The builtin memory tool (ezagent/tools/builtins/memory/main.py): named
 * collections of stored memories, kept in an embedded vector database
 * under the prefix `ezagent_`, with filter expressions built from the
 * agent name and comma-separated tags.
 *
 * The database is modelled as a map from (prefixed) collection name to the
 * memories stored in it; embeddings, similarity ranking and the query
 * engine are not modelled: search and list results are given as the rows
 * the database returned.
 */
module MemoryTool {
  import opened Wrappers
  import opened Strings
  import opened Json
  import Config

  const DefaultCollection := "memory"
  const CollectionPrefix := "ezagent_"

  /** The storage name of a user-facing collection. */
  function FullCollectionName(collection: string): (r: string)
    ensures CollectionPrefix <= r && r[|CollectionPrefix|..] == collection
  {
    CollectionPrefix + collection
  }

  /** Prefixing is injective: distinct collections never share storage. */
  lemma FullCollectionNameInjective(a: string, b: string)
    ensures FullCollectionName(a) == FullCollectionName(b) <==> a == b
  {
    if FullCollectionName(a) == FullCollectionName(b) {
      assert a == FullCollectionName(a)[|CollectionPrefix|..];
    }
  }

  /** Python's `x or ""` on an optional string. */
  function OrEmpty(x: Option<string>): (r: string)
    ensures x.Some? ==> r == x.value
    ensures x.None? ==> r == ""
  {
    if x.Some? then x.value else ""
  }

  /** `collection or DEFAULT_COLLECTION`: None and "" both select the default. */
  function UserCollection(collection: Option<string>): (r: string)
    ensures r != ""
    ensures OrEmpty(collection) != "" ==> r == collection.value
    ensures OrEmpty(collection) == "" ==> r == DefaultCollection
  {
    if OrEmpty(collection) != "" then collection.value else DefaultCollection
  }

  /** One stored memory (its embedding vector is not modelled). */
  datatype Memory = Memory(id: string, content: string, agentName: string, tags: string, createdAt: string)

  /** The database: collection storage name to the memories in it, in insertion order. */
  type Store = map<string, seq<Memory>>

  /** `_ensure_collection`: an existing collection is kept, a missing one is created empty. */
  function EnsureCollection(store: Store, name: string): (r: Store)
    ensures r.Keys == store.Keys + {name}
    ensures forall n :: n in store ==> r[n] == store[n]
    ensures name !in store ==> r[name] == []
  {
    if name in store then store else store[name := []]
  }

  /** The store reply: status, id, the user-facing collection and the timestamp. */
  function StoredReply(id: string, collection: string, createdAt: string): Json {
    JObj([Field("status", JStr("stored")), Field("id", JStr(id)), Field("collection", JStr(collection)), Field("created_at", JStr(createdAt))])
  }

  lemma StoredReplyCollection(id: string, collection: string, createdAt: string)
    ensures Lookup(StoredReply(id, collection, createdAt).fields, "collection") == Some(JStr(collection))
  {
    var f := StoredReply(id, collection, createdAt).fields;
    assert f[..3][..2][..1] == [Field("status", JStr("stored"))];
    assert f[..3][..2] == [Field("status", JStr("stored")), Field("id", JStr(id))];
    assert f[..3] == [Field("status", JStr("stored")), Field("id", JStr(id)), Field("collection", JStr(collection))];
    assert "created_at"[1] != "collection"[1];
  }

  /**
   * `memory_store`, with the fresh id and the timestamp as parameters: the
   * memory is appended to the prefixed collection, created if needed, and
   * the reply names the collection without its prefix.
   */
  function MemoryStore(store: Store, content: string, collection: Option<string>, tags: Option<string>,
                       agentName: Option<string>, id: string, createdAt: string): (r: (Store, Json))
    ensures var col := FullCollectionName(UserCollection(collection));
      col in r.0 && r.0[col] == (if col in store then store[col] else []) + [Memory(id, content, OrEmpty(agentName), OrEmpty(tags), createdAt)]
    ensures r.0.Keys == store.Keys + {FullCollectionName(UserCollection(collection))}
    ensures forall n :: n in store && n != FullCollectionName(UserCollection(collection)) ==> r.0[n] == store[n]
    ensures r.1.JObj? && Lookup(r.1.fields, "collection") == Some(JStr(UserCollection(collection)))
  {
    var user := UserCollection(collection);
    var col := FullCollectionName(user);
    var s := EnsureCollection(store, col);
    StoredReplyCollection(id, user, createdAt);
    (s[col := s[col] + [Memory(id, content, OrEmpty(agentName), OrEmpty(tags), createdAt)]], StoredReply(id, user, createdAt))
  }

  /** The memories whose id differs from `id`, in order. */
  function WithoutId(ms: seq<Memory>, id: string): (r: seq<Memory>)
    ensures forall k :: 0 <= k < |r| ==> r[k].id != id && r[k] in ms
    ensures forall m :: m in ms && m.id != id ==> m in r
    ensures |r| <= |ms|
  {
    if |ms| == 0 then []
    else (if ms[0].id != id then [ms[0]] else []) + WithoutId(ms[1..], id)
  }

  function DeletedReply(id: string): Json {
    JObj([Field("status", JStr("deleted")), Field("id", JStr(id))])
  }

  /** `memory_delete`: every memory with that id leaves the collection; everything else stays. */
  function MemoryDelete(store: Store, memoryId: string, collection: Option<string>): (r: (Store, Json))
    ensures var col := FullCollectionName(UserCollection(collection));
      col in r.0 && (forall k :: 0 <= k < |r.0[col]| ==> r.0[col][k].id != memoryId)
      && (col in store ==> forall m :: m in store[col] && m.id != memoryId ==> m in r.0[col])
    ensures r.0.Keys == store.Keys + {FullCollectionName(UserCollection(collection))}
    ensures forall n :: n in store && n != FullCollectionName(UserCollection(collection)) ==> r.0[n] == store[n]
    ensures r.1 == DeletedReply(memoryId)
  {
    var col := FullCollectionName(UserCollection(collection));
    var s := EnsureCollection(store, col);
    (s[col := WithoutId(s[col], memoryId)], DeletedReply(memoryId))
  }

  /** Deleting twice is deleting once. */
  lemma MemoryDeleteIdempotent(store: Store, memoryId: string, collection: Option<string>)
    ensures var once := MemoryDelete(store, memoryId, collection).0;
      MemoryDelete(once, memoryId, collection).0 == once
  {
    var col := FullCollectionName(UserCollection(collection));
    var once := MemoryDelete(store, memoryId, collection).0;
    WithoutIdAbsent(once[col], memoryId);
  }

  lemma {:induction false} WithoutIdAbsent(ms: seq<Memory>, id: string)
    requires forall k :: 0 <= k < |ms| ==> ms[k].id != id
    ensures WithoutId(ms, id) == ms
  {
    if |ms| > 0 {
      WithoutIdAbsent(ms[1..], id);
      assert ms == [ms[0]] + ms[1..];
    }
  }

  // ----- filter expressions -----

  function AgentClause(agent: string): string {
    "agent_name == \"" + agent + "\""
  }

  function TagClause(tag: string): string {
    "tags like \"%" + tag + "%\""
  }

  /** The trimmed, non-empty tags of a comma-separated list (None and "" give none). */
  function Tags(tags: Option<string>): (r: seq<string>)
    ensures forall k :: 0 <= k < |r| ==> Config.CsvItem(r[k])
  {
    if OrEmpty(tags) == "" then []
    else
      Config.SplitCsvItems(tags.value);
      Config.SplitCsv(Config.Text(tags.value))
  }

  /** The clauses of a search filter: the agent clause first when an agent is given, then one per tag. */
  function SearchClauses(agentName: Option<string>, tags: Option<string>): (r: seq<string>)
    ensures |r| == (if OrEmpty(agentName) != "" then 1 else 0) + |Tags(tags)|
    ensures OrEmpty(agentName) != "" ==> r[0] == AgentClause(agentName.value)
    ensures forall k :: 0 <= k < |Tags(tags)| ==> r[|r| - |Tags(tags)| + k] == TagClause(Tags(tags)[k])
  {
    var ts := Tags(tags);
    (if OrEmpty(agentName) != "" then [AgentClause(agentName.value)] else [])
      + seq(|ts|, k requires 0 <= k < |ts| => TagClause(ts[k]))
  }

  /** The filter `memory_search` passes: the clauses joined by " and ", or None when there are none. */
  function SearchFilter(agentName: Option<string>, tags: Option<string>): (r: Option<string>)
    ensures r.None? <==> OrEmpty(agentName) == "" && Tags(tags) == []
  {
    var clauses := SearchClauses(agentName, tags);
    if clauses == [] then None else Some(Join(clauses, " and "))
  }

  /** Every part of a join occurs in it. */
  lemma {:induction false} JoinContainsPart(parts: seq<string>, sep: string, k: nat)
    requires k < |parts|
    ensures Contains(Join(parts, sep), parts[k])
    decreases |parts|
  {
    var j := Join(parts, sep);
    if |parts| == 1 {
      assert OccursAt(j, parts[0], 0);
    } else if k == 0 {
      assert j == parts[0] + (sep + Join(parts[1..], sep));
      assert OccursAt(j, parts[0], 0);
    } else {
      JoinContainsPart(parts[1..], sep, k - 1);
      var rest := Join(parts[1..], sep);
      var i :| 0 <= i <= |rest| && OccursAt(rest, parts[k], i);
      var front := parts[0] + sep;
      assert j == front + rest;
      assert j[|front| + i..|front| + i + |parts[k]|] == rest[i..i + |parts[k]|];
      assert OccursAt(j, parts[k], |front| + i);
    }
  }

  /** The agent clause opens the search filter, and each tag's clause occurs in it. */
  lemma SearchFilterClauses(agentName: Option<string>, tags: Option<string>)
    ensures OrEmpty(agentName) != "" ==> AgentClause(agentName.value) <= SearchFilter(agentName, tags).value
    ensures forall k :: 0 <= k < |Tags(tags)| ==> Contains(SearchFilter(agentName, tags).value, TagClause(Tags(tags)[k]))
  {
    var clauses := SearchClauses(agentName, tags);
    forall k | 0 <= k < |Tags(tags)|
      ensures Contains(SearchFilter(agentName, tags).value, TagClause(Tags(tags)[k]))
    {
      TagClauseInFilter(agentName, tags, k);
    }
    if OrEmpty(agentName) != "" {
      assert clauses[0] == AgentClause(agentName.value);
      JoinStartsWithFirst(clauses, " and ");
    }
  }

  lemma TagClauseInFilter(agentName: Option<string>, tags: Option<string>, k: nat)
    requires k < |Tags(tags)|
    ensures SearchFilter(agentName, tags).Some?
    ensures Contains(SearchFilter(agentName, tags).value, TagClause(Tags(tags)[k]))
  {
    var clauses := SearchClauses(agentName, tags);
    var i := |clauses| - |Tags(tags)| + k;
    assert clauses[i] == TagClause(Tags(tags)[k]);
    JoinContainsPart(clauses, " and ", i);
  }

  /** Tags written without commas or surrounding blanks are read back in order. */
  lemma TagsOfJoined(tags: seq<string>)
    requires |tags| >= 1
    requires forall k :: 0 <= k < |tags| ==> Config.CsvItem(tags[k])
    ensures Tags(Some(Join(tags, ","))) == tags
  {
    Config.SplitCsvJoin(tags);
    JoinStartsWithFirst(tags, ",");
  }

  lemma JoinStartsWithFirst(parts: seq<string>, sep: string)
    requires |parts| >= 1
    ensures parts[0] <= Join(parts, sep)
  {
  }

  /** `memory_list`'s filter: the agent clause exactly when an agent is given, i.e. the search filter without tags. */
  function ListFilter(agentName: Option<string>): (r: Option<string>)
    ensures r == SearchFilter(agentName, None)
  {
    if OrEmpty(agentName) != "" then Some(AgentClause(agentName.value)) else None
  }

  // ----- replies -----

  /** `d.get(key, "")` on a returned row. */
  function FieldOr(row: Json, key: string): Json
    requires row.JObj?
  {
    GetOr(row, key, JStr(""))
  }

  /** One `memory_list` item, from a returned row. */
  function ListItem(row: Json): (r: Json)
    requires row.JObj?
    ensures r.JObj? && |r.fields| == 5
  {
    JObj([Field("id", FieldOr(row, "id")), Field("content", FieldOr(row, "content")),
          Field("agent_name", FieldOr(row, "agent_name")), Field("tags", FieldOr(row, "tags")),
          Field("created_at", FieldOr(row, "created_at"))])
  }

  /**
   * One `memory_search` hit: its id, its rounded score (given), and the
   * entity's fields. A hit whose `entity` is present but not a mapping makes
   * the tool raise (None).
   */
  function SearchItem(hit: Json, score: Json): (r: Option<Json>)
    requires hit.JObj?
    ensures r.None? <==> Get(hit, "entity").Some? && !Get(hit, "entity").value.JObj?
    ensures r.Some? ==> r.value.JObj? && |r.value.fields| == 6
  {
    var entity := GetOr(hit, "entity", JObj([]));
    if !entity.JObj? then None
    else Some(JObj([Field("id", GetOr(hit, "id", JNull)), Field("score", score),
                    Field("content", FieldOr(entity, "content")), Field("agent_name", FieldOr(entity, "agent_name")),
                    Field("tags", FieldOr(entity, "tags")), Field("created_at", FieldOr(entity, "created_at"))]))
  }

  /** `{"results": items, "count": len(items)}`. */
  function ResultsReply(items: seq<Json>): Json {
    JObj([Field("results", JArr(items)), Field("count", JInt(|items|))])
  }

  /** The reported count is the number of returned items. */
  lemma ResultsReplyCount(items: seq<Json>)
    ensures Lookup(ResultsReply(items).fields, "count") == Some(JInt(|items|))
    ensures Lookup(ResultsReply(items).fields, "results") == Some(JArr(items))
  {
    var f := ResultsReply(items).fields;
    assert f[..1] == [Field("results", JArr(items))];
    assert f[..1][..0] == [];
    assert "count"[0] != "results"[0];
  }

  /** Python's `all(isinstance(r, dict) for r in rows)`. */
  predicate AllObjects(rows: seq<Json>) {
    forall k :: 0 <= k < |rows| ==> rows[k].JObj?
  }

  /** `store1` is `store` after `_ensure_collection(col)`: the collection exists, nothing else changed. */
  predicate Ensured(store: Store, store1: Store, col: string) {
    store1.Keys == store.Keys + {col} && (forall n :: n in store ==> store1[n] == store[n]) &&
    (col !in store ==> store1[col] == [])
  }

  /**
   * `memory_list` over the rows the query returned: the collection is
   * created first when missing, then one item per row, in order.
   */
  function MemoryList(store: Store, collection: Option<string>, rows: seq<Json>): (r: (Store, Json))
    requires AllObjects(rows)
    ensures Ensured(store, r.0, FullCollectionName(UserCollection(collection)))
    ensures r.1.JObj? && Lookup(r.1.fields, "count") == Some(JInt(|rows|))
    ensures Lookup(r.1.fields, "results").Some? && Lookup(r.1.fields, "results").value.JArr?
    ensures var items := Lookup(r.1.fields, "results").value.items;
      |items| == |rows| && forall k :: 0 <= k < |rows| ==> items[k] == ListItem(rows[k])
  {
    var s := EnsureCollection(store, FullCollectionName(UserCollection(collection)));
    var items := seq(|rows|, k requires 0 <= k < |rows| => ListItem(rows[k]));
    ResultsReplyCount(items);
    (s, ResultsReply(items))
  }

  /** The items of every hit, or None as soon as one raises. */
  function SearchItems(hits: seq<Json>, scores: seq<Json>): (r: Option<seq<Json>>)
    requires AllObjects(hits) && |scores| == |hits|
    ensures r.Some? <==> forall k :: 0 <= k < |hits| ==> SearchItem(hits[k], scores[k]).Some?
    ensures r.Some? ==> |r.value| == |hits| && forall k :: 0 <= k < |hits| ==> r.value[k] == SearchItem(hits[k], scores[k]).value
  {
    if |hits| == 0 then Some([])
    else match (SearchItem(hits[0], scores[0]), SearchItems(hits[1..], scores[1..]))
      case (Some(x), Some(rest)) =>
        assert forall k :: 1 <= k < |hits| ==> hits[k] == hits[1..][k - 1] && scores[k] == scores[1..][k - 1];
        Some([x] + rest)
      case (None, _) => None
      case (_, None) =>
        assert forall k :: 1 <= k < |hits| ==> hits[k] == hits[1..][k - 1] && scores[k] == scores[1..][k - 1];
        None
  }

  /**
   * `memory_search` over the hits the search returned, with their rounded
   * scores: the collection is created first when missing, so it exists
   * even when reading a hit then raises.
   */
  function MemorySearch(store: Store, collection: Option<string>, hits: seq<Json>, scores: seq<Json>): (r: (Store, Option<Json>))
    requires AllObjects(hits) && |scores| == |hits|
    ensures Ensured(store, r.0, FullCollectionName(UserCollection(collection)))
    ensures r.1.Some? <==> forall k :: 0 <= k < |hits| ==> SearchItem(hits[k], scores[k]).Some?
    ensures r.1.Some? ==> r.1.value.JObj? && Lookup(r.1.value.fields, "count") == Some(JInt(|hits|))
    ensures r.1.Some? ==> Lookup(r.1.value.fields, "results") == Some(JArr(SearchItems(hits, scores).value))
  {
    var s := EnsureCollection(store, FullCollectionName(UserCollection(collection)));
    match SearchItems(hits, scores)
    case None => (s, None)
    case Some(items) =>
      ResultsReplyCount(items);
      (s, Some(ResultsReply(items)))
  }

  // ----- collections -----

  /** The prefixed names among `listing`, prefix stripped, in listing order. */
  function Unprefixed(listing: seq<string>): seq<string>
  {
    if |listing| == 0 then []
    else
      var c := listing[0];
      (if CollectionPrefix <= c then [c[|CollectionPrefix|..]] else []) + Unprefixed(listing[1..])
  }

  /** Stripping the prefix round-trips with `FullCollectionName`: `n` is listed iff its storage name is. */
  lemma {:induction false} UnprefixedMembers(listing: seq<string>, n: string)
    ensures n in Unprefixed(listing) <==> FullCollectionName(n) in listing
    decreases |listing|
  {
    if |listing| > 0 {
      var c := listing[0];
      UnprefixedMembers(listing[1..], n);
      assert FullCollectionName(n) in listing <==> FullCollectionName(n) == c || FullCollectionName(n) in listing[1..];
      if CollectionPrefix <= c {
        assert FullCollectionName(c[|CollectionPrefix|..]) == c;
        FullCollectionNameInjective(n, c[|CollectionPrefix|..]);
      }
    }
  }

  /** `memory_collections`' list: exactly the user-facing names of the prefixed collections, sorted. */
  function CollectionNames(listing: seq<string>): (r: seq<string>)
    ensures SortedStrings(r)
    ensures multiset(r) == multiset(Unprefixed(listing))
    ensures forall n :: n in r <==> FullCollectionName(n) in listing
  {
    var r := SortStrings(Unprefixed(listing));
    forall n ensures n in r <==> FullCollectionName(n) in listing {
      UnprefixedMembers(listing, n);
      assert n in r <==> n in multiset(r);
    }
    r
  }

  function CollectionsReply(listing: seq<string>): Json {
    var names := CollectionNames(listing);
    JObj([Field("collections", JArr(seq(|names|, k requires 0 <= k < |names| => JStr(names[k]))))])
  }

  /** A collection written to by `memory_store` is listed afterwards under the name the caller used. */
  lemma StoredCollectionListed(store: Store, content: string, collection: Option<string>, tags: Option<string>,
                               agentName: Option<string>, id: string, createdAt: string, listing: seq<string>)
    requires forall n :: n in listing <==> n in MemoryStore(store, content, collection, tags, agentName, id, createdAt).0
    ensures UserCollection(collection) in CollectionNames(listing)
  {
  }
}
