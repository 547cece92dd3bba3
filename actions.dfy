/** The resource action factory and the seeding routine: handlers that read
    or change the document store and record their answer in a response
    (`body`, `status`). */
module Actions {
  import opened Optional
  import opened Documents
  import Tags

  /** The models a handler set can be bound to. */
  datatype Model = Tag | Category | Article | User

  /** The four collections of the store. */
  datatype Db = Db(tags: Collection, categories: Collection, articles: Collection, users: Collection) {
    function Of(m: Model): Collection {
      match m
      case Tag => tags
      case Category => categories
      case Article => articles
      case User => users
    }

    function With(m: Model, c: Collection): Db {
      match m
      case Tag => this.(tags := c)
      case Category => this.(categories := c)
      case Article => this.(articles := c)
      case User => this.(users := c)
    }
  }

  /** The whole store and its id counter. */
  datatype State = State(db: Db, next: nat)

  predicate WellFormed(st: State) {
    && KeysBelow(st.db.tags, st.next)
    && KeysBelow(st.db.categories, st.next)
    && KeysBelow(st.db.articles, st.next)
    && KeysBelow(st.db.users, st.next)
    && Tags.Numbered(st.db.tags)
  }

  /** The response body a handler leaves behind. `Reply` is the object the
      login and register handlers build; a `None` user stands for both a
      `null` user and a missing one. */
  datatype Body =
    | Unset
    | Docs(docs: seq<Doc>)
    | One(doc: Doc)
    | Reply(status: string, user: Option<Doc>, message: Option<string>)

  const Yes: string := "yes"
  const No: string := "no"
  const EmailTaken: string := "This email is already saved"
  const NameTaken: string := "This name is already saved"
  const NoContent: int := 204

  /** What `model.create` stores for a payload, or None when the schema
      refuses it. Only the tag schema is part of this model. */
  function SchemaStored(m: Model, payload: Doc): Option<Doc> {
    if m == Tag then Tags.Stored(payload) else Some(payload)
  }

  /** Stores a document under the next fresh id. */
  function Insert(st: State, m: Model, d: Doc): (r: State)
    requires WellFormed(st) && (m == Tag ==> Get(d, "number").Num?)
    ensures WellFormed(r)
  {
    assert KeysBelow(st.db.Of(m), st.next);
    State(st.db.With(m, st.db.Of(m)[st.next := d]), st.next + 1)
  }

  /** `saveTags(names)` on the whole store. */
  function RunSaveTags(st: State, names: seq<string>): (r: State)
    requires WellFormed(st)
    ensures WellFormed(r)
  {
    var t := Tags.SaveTags(Tags.TagState(st.db.tags, st.next), names);
    State(st.db.(tags := t.tags), t.next)
  }

  /** One step of `saveTags` on the whole store. */
  function TagStep(st: State, name: string): (r: State)
    requires WellFormed(st)
    ensures WellFormed(r)
  {
    var t := Tags.SaveTag(Tags.TagState(st.db.tags, st.next), name);
    State(st.db.(tags := t.tags), t.next)
  }

  lemma RunSaveTagsStep(st: State, names: seq<string>, i: nat)
    requires WellFormed(st) && i < |names|
    ensures RunSaveTags(st, names[..i + 1]) == TagStep(RunSaveTags(st, names[..i]), names[i])
  {
    assert names[..i + 1][..i] == names[..i];
  }

  /** `saveCategory(category)`: always inserts, never looks for an existing
      category of that name. */
  function AddCategory(st: State, category: Value): (r: State)
    requires WellFormed(st)
    ensures WellFormed(r)
  {
    Insert(st, Category, map["name" := category])
  }

  /** saveCategory always adds one category under a fresh id, even when a
      category of that name exists; nothing else changes. */
  lemma AddCategoryInserts(st: State, category: Value)
    requires WellFormed(st)
    ensures var r := AddCategory(st, category);
      && st.next !in st.db.categories && |r.db.categories| == |st.db.categories| + 1
      && r.db.categories == st.db.categories[st.next := map["name" := category]]
      && r.db.(categories := st.db.categories) == st.db && r.next == st.next + 1
  {
  }

  /** The article branch of create, also taken twice by the seed routine:
      save the tags, save the category, then create the article. */
  function PublishArticle(st: State, names: seq<string>, article: Doc): (r: State)
    requires WellFormed(st)
    ensures WellFormed(r)
  {
    Insert(AddCategory(RunSaveTags(st, names), Get(article, "category")), Article, article)
  }

  /** The state and created document after `create` on model `m`; None when
      it fails (the article's `tags` is not a list, so `tags.map` throws, or
      the schema refuses the payload), in which case nothing changed. */
  function CreateSpec(st: State, m: Model, payload: Doc): (r: Option<(State, Doc)>)
    requires WellFormed(st)
    ensures r.None? <==>
      (m == Article && !Get(payload, "tags").Strs?) ||
      (m == Tag && "number" in payload && !payload["number"].Num?)
    ensures r.Some? && m != Tag ==> r.value.1 == payload
  {
    if m == Article then
      match Get(payload, "tags")
      case Strs(names) => Some((PublishArticle(st, names, payload), payload))
      case _ => None
    else
      match SchemaStored(m, payload)
      case Some(d) => Some((Insert(st, m, d), d))
      case None => None
  }

  /** For the article model, create saves the tags (each name's counter goes
      up by its number of occurrences), inserts one category named after the
      article's category even if one exists, then stores the article itself;
      users stay as they were. */
  lemma CreateArticle(st: State, payload: Doc, names: seq<string>, name: string)
    requires WellFormed(st) && Get(payload, "tags") == Strs(names)
    ensures CreateSpec(st, Article, payload).Some?
    ensures var r, d := CreateSpec(st, Article, payload).value.0, CreateSpec(st, Article, payload).value.1;
      var before := Tags.TagState(st.db.tags, st.next);
      && d == payload
      && r.db.users == st.db.users
      && Tags.WellFormed(Tags.TagState(r.db.tags, r.next))
      && Tags.Usage(Tags.TagState(r.db.tags, r.next), name) == Tags.Usage(before, name) + multiset(names)[name]
      && |r.db.categories| == |st.db.categories| + 1
      && (exists kc: nat, ka: nat ::
            && kc !in st.db.categories && r.db.categories == st.db.categories[kc := map["name" := Get(payload, "category")]]
            && ka !in st.db.articles && r.db.articles == st.db.articles[ka := payload]
            && (forall id :: id in r.db.tags ==> id < kc)
            && kc < ka)
  {
    var s1 := RunSaveTags(st, names);
    var s2 := AddCategory(s1, Get(payload, "category"));
    var t := Tags.SaveTags(Tags.TagState(st.db.tags, st.next), names);
    Tags.SaveTagsUsage(Tags.TagState(st.db.tags, st.next), names, name);
    var r := Insert(s2, Article, payload);
    assert Tags.TagState(r.db.tags, r.next) == Tags.TagState(t.tags, r.next);
    UsageIgnoresLaterIds(t, r.next, name);
    assert s1.next !in st.db.categories;
    assert r.db.categories == st.db.categories[s1.next := map["name" := Get(payload, "category")]];
    assert s2.next !in st.db.articles;
    assert forall id :: id in r.db.tags ==> id < s1.next;
  }

  /** Moving the id counter forward does not change what a lookup finds. */
  lemma UsageIgnoresLaterIds(t: Tags.TagState, n: nat, name: string)
    requires Tags.WellFormed(t) && t.next <= n
    ensures Tags.WellFormed(Tags.TagState(t.tags, n))
    ensures Tags.Usage(Tags.TagState(t.tags, n), name) == Tags.Usage(t, name)
  {
    FindOneSameMatches(t.tags, t.next, Tags.NameQuery(name), t.tags, n);
  }

  /** For every other model, create only stores the document (with the tag
      schema's default counter for tags); no other collection changes. */
  lemma CreateOther(st: State, m: Model, payload: Doc)
    requires WellFormed(st) && m != Article
    requires m == Tag && "number" in payload ==> payload["number"].Num?
    ensures CreateSpec(st, m, payload).Some?
    ensures var r, d := CreateSpec(st, m, payload).value.0, CreateSpec(st, m, payload).value.1;
      && (m != Tag ==> d == payload)
      && (m == Tag && "number" !in payload ==> d == payload["number" := Num(1)])
      && st.next !in st.db.Of(m)
      && r.db.Of(m) == st.db.Of(m)[st.next := d]
      && forall m' :: m' != m ==> r.db.Of(m') == st.db.Of(m')
  {
  }

  /** The store, its id counter, and the response of the current request. */
  class Store {
    var db: Db
    var nextId: nat
    var body: Body
    /** The status a handler set explicitly, if any. */
    var status: Option<int>

    ghost predicate Valid()
      reads this
    {
      WellFormed(State(db, nextId))
    }

    function Current(): State
      reads this
    {
      State(db, nextId)
    }

    constructor ()
      ensures Valid() && db == Db(map[], map[], map[], map[]) && body == Unset && status == None
    {
      db := Db(map[], map[], map[], map[]);
      nextId := 0;
      body := Unset;
      status := None;
    }

    /** `find`: the body becomes the list of matching documents. */
    method Find(m: Model, query: Query)
      requires Valid()
      modifies this`body
      ensures body.Docs? && forall d :: d in body.docs ==> Matches(d, query)
      ensures body.Docs? && forall id :: id in db.Of(m) && Matches(db.Of(m)[id], query) ==> db.Of(m)[id] in body.docs
      ensures body == Docs(FindAll(db.Of(m), query, nextId))
    {
      body := Docs(FindAll(db.Of(m), query, nextId));
    }

    /** Stores a document under the next fresh id. */
    method InsertDoc(m: Model, d: Doc)
      requires Valid() && (m == Tag ==> Get(d, "number").Num?)
      modifies this`db, this`nextId
      ensures Valid() && Current() == Insert(old(Current()), m, d)
    {
      db := db.With(m, db.Of(m)[nextId := d]);
      nextId := nextId + 1;
    }

    /** `saveTags`: the per-name steps, one after the other. */
    method SaveTags(names: seq<string>)
      requires Valid()
      modifies this`db, this`nextId
      ensures Valid() && Current() == RunSaveTags(old(Current()), names)
    {
      var i := 0;
      while i < |names|
        invariant 0 <= i <= |names|
        invariant Valid()
        invariant Current() == RunSaveTags(old(Current()), names[..i])
      {
        RunSaveTagsStep(old(Current()), names, i);
        SaveTag(names[i]);
        i := i + 1;
      }
      assert names[..|names|] == names;
    }

    /** One name of `saveTags`: bump the tag found by name, or create it. */
    method SaveTag(name: string)
      requires Valid()
      modifies this`db, this`nextId
      ensures Valid() && Current() == TagStep(old(Current()), name)
    {
      ghost var step := Tags.SaveTag(Tags.TagState(db.tags, nextId), name);
      match FindOne(db.tags, Tags.NameQuery(name), nextId)
      case Some(id) =>
        var doc := db.tags[id];
        db := db.(tags := db.tags[id := doc["number" := Num(Tags.Number(doc) + 1)]]);
        assert db.tags == step.tags && nextId == step.next;
      case None =>
        db := db.(tags := db.tags[nextId := Tags.Stored(map["name" := Str(name)]).value]);
        nextId := nextId + 1;
        assert db.tags == step.tags && nextId == step.next;
    }

    /** `saveCategory`. */
    method SaveCategory(category: Value)
      requires Valid()
      modifies this`db, this`nextId
      ensures Valid() && Current() == AddCategory(old(Current()), category)
    {
      InsertDoc(Category, map["name" := category]);
    }

    /** `create`: for articles, tags and category first; then the document,
      which becomes the body. On failure nothing changes. */
    method Create(m: Model, payload: Doc)
      requires Valid()
      modifies this`db, this`nextId, this`body
      ensures Valid()
      ensures CreateSpec(old(Current()), m, payload).None? ==> Current() == old(Current()) && body == old(body)
      ensures CreateSpec(old(Current()), m, payload).Some? ==>
        Current() == CreateSpec(old(Current()), m, payload).value.0 &&
        body == One(CreateSpec(old(Current()), m, payload).value.1)
    {
      if m == Article {
        var tags := Get(payload, "tags");
        if !tags.Strs? {
          return;
        }
        SaveTags(tags.items);
        SaveCategory(Get(payload, "category"));
        InsertDoc(Article, payload);
        body := One(payload);
      } else {
        var d := SchemaStored(m, payload);
        if d.None? {
          return;
        }
        InsertDoc(m, d.value);
        body := One(d.value);
      }
    }

    /** `findById`: the body is set only when the document exists. */
    method FindById(m: Model, id: nat)
      requires Valid()
      modifies this`body
      ensures id in db.Of(m) ==> body == One(db.Of(m)[id])
      ensures id !in db.Of(m) ==> body == old(body)
    {
      if id in db.Of(m) {
        body := One(db.Of(m)[id]);
      }
    }

    /** `updateById`: the fields of `update` overwrite the document's, and
      the body becomes the updated document; a missing id or an update the
      schema refuses leaves store and body as they were. */
    method UpdateById(m: Model, id: nat, update: Doc)
      requires Valid()
      modifies this`db, this`body
      ensures Valid()
      ensures id in old(db.Of(m)) && (m == Tag ==> "number" in update ==> update["number"].Num?) ==>
        db == old(db).With(m, old(db.Of(m))[id := old(db.Of(m))[id] + update]) &&
        body == One(old(db.Of(m))[id] + update)
      ensures id !in old(db.Of(m)) || (m == Tag && "number" in update && !update["number"].Num?) ==>
        db == old(db) && body == old(body)
    {
      if id !in db.Of(m) {
        return;
      }
      var doc := db.Of(m)[id];
      if m == Tag {
        var updated := Tags.Updated(doc, update);
        if updated.None? {
          return;
        }
      }
      var doc' := doc + update;
      db := db.With(m, db.Of(m)[id := doc']);
      body := One(doc');
    }

    /** `deleteById`: removes exactly that document and sets status 204; a
      missing id changes neither the store nor the status. */
    method DeleteById(m: Model, id: nat)
      requires Valid()
      modifies this`db, this`status
      ensures Valid()
      ensures id in old(db.Of(m)) ==> db == old(db).With(m, old(db.Of(m)) - {id}) && status == Some(NoContent)
      ensures id !in old(db.Of(m)) ==> db == old(db) && status == old(status)
    {
      if id in db.Of(m) {
        db := db.With(m, db.Of(m) - {id});
        status := Some(NoContent);
      }
    }

    /** `login`: `yes` with the oldest matching user, or `no` with none. */
    method Login(query: Query)
      requires Valid()
      modifies this`body
      ensures (exists id :: id in db.users && Matches(db.users[id], query)) ==>
        body.Reply? && body.status == Yes && body.user.Some? && Matches(body.user.value, query) &&
        body.user.value in db.users.Values && body.message == None
      ensures FindOne(db.users, query, nextId).Some? ==>
        body.user == Some(db.users[FindOne(db.users, query, nextId).value])
      ensures (forall id :: id in db.users ==> !Matches(db.users[id], query)) ==>
        body == Reply(No, None, None)
    {
      var found := FindOne(db.users, query, nextId);
      match found
      case Some(id) => body := Reply(Yes, Some(db.users[id]), None);
      case None => body := Reply(No, None, None);
    }

    /** `register`: refuses a taken email, then a taken name; otherwise
      creates exactly one user from the payload. */
    method Register(payload: Doc)
      requires Valid()
      modifies this`db, this`nextId, this`body
      ensures Valid()
      ensures Taken(old(db.users), "email", payload) ==>
        body == Reply(No, None, Some(EmailTaken)) && Current() == old(Current())
      ensures !Taken(old(db.users), "email", payload) && Taken(old(db.users), "name", payload) ==>
        body == Reply(No, None, Some(NameTaken)) && Current() == old(Current())
      ensures !Taken(old(db.users), "email", payload) && !Taken(old(db.users), "name", payload) ==>
        && db == old(db).(users := old(db.users)[old(nextId) := payload])
        && old(nextId) !in old(db.users)
        && nextId == old(nextId) + 1
        && body == Reply(Yes, Some(payload), None)
    {
      body := Reply("", None, None);
      var byEmail := FindOne(db.users, map["email" := Get(payload, "email")], nextId);
      if byEmail.Some? {
        assert Get(db.users[byEmail.value], "email") == Get(payload, "email");
        body := Reply(No, None, Some(EmailTaken));
        return;
      }
      assert !Taken(db.users, "email", payload) by {
        forall id | id in db.users ensures Get(db.users[id], "email") != Get(payload, "email") {
          assert !Matches(db.users[id], map["email" := Get(payload, "email")]);
        }
      }
      var byName := FindOne(db.users, map["name" := Get(payload, "name")], nextId);
      if byName.Some? {
        assert Get(db.users[byName.value], "name") == Get(payload, "name");
        body := Reply(No, None, Some(NameTaken));
        return;
      }
      assert !Taken(db.users, "name", payload) by {
        forall id | id in db.users ensures Get(db.users[id], "name") != Get(payload, "name") {
          assert !Matches(db.users[id], map["name" := Get(payload, "name")]);
        }
      }
      InsertDoc(User, payload);
      body := Reply(Yes, Some(payload), None);
    }
  }

  /** Some user already has the payload's value for `field` (a missing
      value counts as `null` on both sides). */
  predicate Taken(users: Collection, field: string, payload: Doc) {
    exists id :: id in users && Get(users[id], field) == Get(payload, field)
  }
}
