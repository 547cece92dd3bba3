/** Tag bookkeeping done when an article is created: for each tag name,
    find the tag of that name and bump its usage counter, or create it with
    the schema's default counter. */
module Tags {
  import opened Optional
  import opened Documents

  /** The tag schema's default for `number`. */
  const DefaultNumber: int := 1

  /** The tag collection together with the store's id counter. */
  datatype TagState = TagState(tags: Collection, next: nat)

  /** Every tag carries a numeric counter: the schema declares `number` as a
      Number with a default, and the store refuses anything else. */
  predicate Numbered(tags: Collection) {
    forall id :: id in tags ==> Get(tags[id], "number").Num?
  }

  predicate WellFormed(st: TagState) {
    KeysBelow(st.tags, st.next) && Numbered(st.tags)
  }

  function Number(d: Doc): int
    requires Get(d, "number").Num?
  {
    Get(d, "number").n
  }

  function NameQuery(name: string): Query {
    map["name" := Str(name)]
  }

  /** What the tag schema stores for a new tag payload: `number` defaults to
      1 when absent; a non-numeric `number` cannot be cast and the create
      fails (None). */
  function Stored(payload: Doc): (r: Option<Doc>)
    ensures r.Some? ==> Get(r.value, "number").Num?
    ensures r.None? <==> "number" in payload && !payload["number"].Num?
    ensures r.Some? ==> forall k :: k in payload ==> k in r.value && r.value[k] == payload[k]
    ensures "number" !in payload ==> r == Some(payload["number" := Num(DefaultNumber)])
  {
    if "number" !in payload then Some(payload["number" := Num(DefaultNumber)])
    else if payload["number"].Num? then Some(payload)
    else None
  }

  /** What the tag schema makes of an update `u` applied to `d` (the fields
      of `u` overwrite those of `d`), or None when `u` holds a `number` that
      cannot be cast. */
  function Updated(d: Doc, u: Doc): (r: Option<Doc>)
    requires Get(d, "number").Num?
    ensures r.Some? ==> Get(r.value, "number").Num?
    ensures r.None? <==> "number" in u && !u["number"].Num?
  {
    if "number" in u && !u["number"].Num? then None else Some(d + u)
  }

  /** One step of `saveTags`: look the name up; bump the counter of the
      (oldest) tag of that name, or create a tag with that name. */
  function SaveTag(st: TagState, name: string): (r: TagState)
    requires WellFormed(st)
    ensures WellFormed(r) && st.next <= r.next && st.tags.Keys <= r.tags.Keys
  {
    match FindOne(st.tags, NameQuery(name), st.next)
    case Some(id) =>
      var doc := st.tags[id];
      TagState(st.tags[id := doc["number" := Num(Number(doc) + 1)]], st.next)
    case None =>
      TagState(st.tags[st.next := Stored(map["name" := Str(name)]).value], st.next + 1)
  }

  /** `saveTags(names)`, with the per-name steps taken one after the other
      in list order. */
  function SaveTags(st: TagState, names: seq<string>): (r: TagState)
    requires WellFormed(st)
    ensures WellFormed(r) && st.next <= r.next && st.tags.Keys <= r.tags.Keys
    decreases |names|
  {
    if names == [] then st
    else SaveTag(SaveTags(st, names[..|names| - 1]), names[|names| - 1])
  }

  /** The usage counter of the tag a lookup by `name` finds; 0 when there
      is none. */
  function Usage(st: TagState, name: string): int
    requires WellFormed(st)
  {
    match FindOne(st.tags, NameQuery(name), st.next)
    case Some(id) => Number(st.tags[id])
    case None => 0
  }

  predicate NamesUnique(tags: Collection) {
    forall i, j :: i in tags && j in tags && i != j ==> Get(tags[i], "name") != Get(tags[j], "name")
  }

  /** For a name some tag already has, one step raises the counter of the
      oldest tag of that name by exactly one, changes nothing else and
      creates no document. */
  lemma SaveTagExisting(st: TagState, name: string, id: nat)
    requires WellFormed(st)
    requires id in st.tags && Get(st.tags[id], "name") == Str(name)
    requires forall j :: j in st.tags && Get(st.tags[j], "name") == Str(name) ==> id <= j
    ensures var r := SaveTag(st, name);
      && r.next == st.next
      && r.tags.Keys == st.tags.Keys
      && Number(r.tags[id]) == Number(st.tags[id]) + 1
      && Get(r.tags[id], "name") == Str(name)
      && forall j :: j in st.tags && j != id ==> r.tags[j] == st.tags[j]
  {
    var found := FindOne(st.tags, NameQuery(name), st.next);
    assert Matches(st.tags[id], NameQuery(name));
    assert found.Some?;
    assert Get(st.tags[found.value], "name") == Str(name);
    assert found.value == id;
  }

  /** For a name no tag has, one step creates exactly one tag, under a fresh
      id, with that name and the default counter 1, and changes nothing else. */
  lemma SaveTagNew(st: TagState, name: string)
    requires WellFormed(st)
    requires forall j :: j in st.tags ==> Get(st.tags[j], "name") != Str(name)
    ensures var r := SaveTag(st, name);
      && st.next !in st.tags
      && r.next == st.next + 1
      && r.tags.Keys == st.tags.Keys + {st.next}
      && r.tags[st.next] == map["name" := Str(name), "number" := Num(1)]
      && forall j :: j in st.tags ==> r.tags[j] == st.tags[j]
  {
    assert FindOne(st.tags, NameQuery(name), st.next).None? by {
      forall j | j in st.tags ensures !Matches(st.tags[j], NameQuery(name)) {
        assert Get(st.tags[j], "name") != NameQuery(name)["name"];
      }
    }
  }

  /** One step raises the counter found under `name` by one and leaves the
      counter found under every other name as it was. */
  lemma SaveTagUsage(st: TagState, name: string, other: string)
    requires WellFormed(st)
    ensures Usage(SaveTag(st, name), other) == Usage(st, other) + (if other == name then 1 else 0)
  {
    match FindOne(st.tags, NameQuery(name), st.next)
    case Some(id) => BumpUsage(st, name, other, id);
    case None => CreateUsage(st, name, other);
  }

  lemma BumpUsage(st: TagState, name: string, other: string, id: nat)
    requires WellFormed(st) && FindOne(st.tags, NameQuery(name), st.next) == Some(id)
    ensures Usage(SaveTag(st, name), other) == Usage(st, other) + (if other == name then 1 else 0)
  {
    var q' := NameQuery(other);
    var r := SaveTag(st, name);
    var doc := st.tags[id];
    var doc' := doc["number" := Num(Number(doc) + 1)];
    assert r.tags == st.tags[id := doc'];
    assert Get(doc', "name") == Get(doc, "name") == Str(name);
    assert Matches(doc', q') <==> Get(doc', "name") == Str(other);
    assert Matches(doc, q') <==> Get(doc, "name") == Str(other);
    FindOneAfterUpdate(st.tags, st.next, q', id, doc');
    if other != name {
      match FindOne(st.tags, q', st.next)
      case Some(id2) =>
        assert Get(st.tags[id2], "name") == Str(other);
        assert id2 != id;
      case None =>
    }
  }

  lemma CreateUsage(st: TagState, name: string, other: string)
    requires WellFormed(st) && FindOne(st.tags, NameQuery(name), st.next).None?
    ensures Usage(SaveTag(st, name), other) == Usage(st, other) + (if other == name then 1 else 0)
  {
    var q' := NameQuery(other);
    var r := SaveTag(st, name);
    var doc := Stored(map["name" := Str(name)]).value;
    assert r.tags == st.tags[st.next := doc];
    assert Get(doc, "name") == Str(name);
    assert Matches(doc, q') <==> Get(doc, "name") == Str(other);
    FindOneAfterInsert(st.tags, st.next, q', doc);
    match FindOne(st.tags, q', st.next)
    case Some(id2) =>
      assert id2 < st.next;
    case None =>
  }

  /** After saveTags, the counter found under each name has gone up by the
      number of times the name occurs in the list. */
  lemma {:induction false} SaveTagsUsage(st: TagState, names: seq<string>, name: string)
    requires WellFormed(st)
    ensures Usage(SaveTags(st, names), name) == Usage(st, name) + multiset(names)[name]
    decreases |names|
  {
    if names != [] {
      var init, last := names[..|names| - 1], names[|names| - 1];
      assert names == init + [last];
      SaveTagsUsage(st, init, name);
      SaveTagUsage(SaveTags(st, init), last, name);
    }
  }

  /** One step keeps tag names unique: it only creates a tag when no tag
      has the name. */
  lemma SaveTagKeepsNamesUnique(st: TagState, name: string)
    requires WellFormed(st) && NamesUnique(st.tags)
    ensures NamesUnique(SaveTag(st, name).tags)
  {
    match FindOne(st.tags, NameQuery(name), st.next)
    case Some(id) => BumpKeepsNamesUnique(st, name, id);
    case None => CreateKeepsNamesUnique(st, name);
  }

  lemma BumpKeepsNamesUnique(st: TagState, name: string, id: nat)
    requires WellFormed(st) && NamesUnique(st.tags)
    requires FindOne(st.tags, NameQuery(name), st.next) == Some(id)
    ensures NamesUnique(SaveTag(st, name).tags)
  {
    var r := SaveTag(st, name);
    assert forall j :: j in r.tags ==> j in st.tags && Get(r.tags[j], "name") == Get(st.tags[j], "name");
  }

  lemma CreateKeepsNamesUnique(st: TagState, name: string)
    requires WellFormed(st) && NamesUnique(st.tags)
    requires FindOne(st.tags, NameQuery(name), st.next) == None
    ensures NamesUnique(SaveTag(st, name).tags)
  {
    var r := SaveTag(st, name);
    forall j | j in st.tags ensures Get(st.tags[j], "name") != Str(name) {
      assert !Matches(st.tags[j], NameQuery(name));
    }
    assert Get(r.tags[st.next], "name") == Str(name);
    assert forall j :: j in st.tags ==> r.tags[j] == st.tags[j];
  }

  /** Run one after another, the steps of saveTags never create a second
      tag with a name that is already taken. */
  lemma {:induction false} SaveTagsKeepsNamesUnique(st: TagState, names: seq<string>)
    requires WellFormed(st) && NamesUnique(st.tags)
    ensures NamesUnique(SaveTags(st, names).tags)
    decreases |names|
  {
    if names != [] {
      SaveTagsKeepsNamesUnique(st, names[..|names| - 1]);
      SaveTagKeepsNamesUnique(SaveTags(st, names[..|names| - 1]), names[|names| - 1]);
    }
  }
}
