/** The seed routine on the live store and what it leaves behind. */
module Seeding {
  import opened Optional
  import opened Documents
  import opened Actions
  import opened Fixtures
  import Tags

  /** Whatever the store held before, the seed leaves exactly `Seeded`:
      the two fixture articles, two categories both named `test`, and the
      tags `tag1` (used twice), `tag2` and `tag3`; users are untouched. */
  lemma SeedOutcome(st: State)
    requires WellFormed(st)
    ensures SeedSpec(st) == Seeded(st.db.users, st.next)
  {
    var p1 := PublishArticle(Wipe(st), Article1Tags, Article1);
    SeedFirstArticle(st);
    SeedSecondArticle(p1, st.db.users, st.next);
  }

  /** What `Seeded` holds, collection by collection. */
  lemma SeededContents(users: Collection, n: nat, r: State)
    requires r == Seeded(users, n)
    ensures && r.db.users == users
      && r.db.articles == map[n + 3 := Article1, n + 6 := Article2]
      && r.db.categories == map[n + 2 := TestCategory(), n + 5 := TestCategory()]
      && r.db.tags == map[n := TagDoc("tag1", 2), n + 1 := TagDoc("tag2", 1), n + 4 := TagDoc("tag3", 1)]
      && r.next == n + 7
      && Article3 !in r.db.articles.Values
  {
    SeedSkipsThird(users, n);
  }

  /** After the seed, `find` on the categories by the name `test` answers
      both stored categories, equal as they are. */
  lemma SeededFindsBothCategories(users: Collection, n: nat)
    ensures var cats := Seeded(users, n).db.categories;
      KeysBelow(cats, n + 7) &&
      var found := FindAll(cats, map["name" := Str("test")], n + 7);
      |found| == 2 && forall d :: d in found ==> d == TestCategory()
  {
    FindsEqualDocsTwice(n + 2, n + 5, n + 7, TestCategory(), map["name" := Str("test")]);
  }

  lemma SeedSecondArticle(p1: State, users: Collection, n: nat)
    requires p1 == State(Db(map[n := TagDoc("tag1", 1), n + 1 := TagDoc("tag2", 1)], map[n + 2 := TestCategory()],
                            map[n + 3 := Article1], users), n + 4)
    requires WellFormed(p1)
    ensures PublishArticle(p1, Article2Tags, Article2) == Seeded(users, n)
  {
    SeedSecondTags(n);
    var t2 := Tags.TagState(map[n := TagDoc("tag1", 2), n + 1 := TagDoc("tag2", 1), n + 4 := TagDoc("tag3", 1)], n + 5);
    PublishShape(p1, Article2Tags, Article2, t2);
    assert Get(Article2, "category") == Str("test");
  }

  /** The third fixture is never saved. */
  lemma SeedSkipsThird(users: Collection, n: nat)
    ensures Article3 !in Seeded(users, n).db.articles.Values
  {
    assert Article3 != Article1 && Article3 != Article2 by {
      assert Article3["title"] != Article1["title"];
      assert Article3["title"] != Article2["title"];
    }
  }

  /** The shape of PublishArticle once the outcome of its saveTags is known. */
  lemma PublishShape(st: State, names: seq<string>, article: Doc, t: Tags.TagState)
    requires WellFormed(st)
    requires Tags.SaveTags(Tags.TagState(st.db.tags, st.next), names) == t
    ensures PublishArticle(st, names, article) ==
      State(Db(t.tags, st.db.categories[t.next := map["name" := Get(article, "category")]],
               st.db.articles[t.next + 1 := article], st.db.users), t.next + 2)
  {
  }

  lemma SeedFirstArticle(st: State)
    requires WellFormed(st)
    ensures WellFormed(PublishArticle(Wipe(st), Article1Tags, Article1))
    ensures var n := st.next;
      PublishArticle(Wipe(st), Article1Tags, Article1) ==
      State(Db(map[n := TagDoc("tag1", 1), n + 1 := TagDoc("tag2", 1)], map[n + 2 := TestCategory()],
               map[n + 3 := Article1], st.db.users), n + 4)
  {
    var n := st.next;
    SeedFirstTags(n);
    PublishShape(Wipe(st), Article1Tags, Article1,
      Tags.TagState(map[n := TagDoc("tag1", 1), n + 1 := TagDoc("tag2", 1)], n + 2));
    assert Get(Article1, "category") == Str("test");
  }

  lemma SaveTwoTags(st: Tags.TagState, a: string, b: string)
    requires Tags.WellFormed(st)
    ensures Tags.SaveTags(st, [a, b]) == Tags.SaveTag(Tags.SaveTag(st, a), b)
  {
    assert [a][..0] == [];
    assert Tags.SaveTags(st, [a]) == Tags.SaveTag(st, a);
    assert [a, b][..1] == [a];
  }

  /** The first fixture's tags, saved into an empty tag collection. */
  lemma SeedFirstTags(n: nat)
    ensures Tags.WellFormed(Tags.TagState(map[], n))
    ensures Tags.SaveTags(Tags.TagState(map[], n), ["tag1", "tag2"]) ==
      Tags.TagState(map[n := TagDoc("tag1", 1), n + 1 := TagDoc("tag2", 1)], n + 2)
  {
    SaveTwoTags(Tags.TagState(map[], n), "tag1", "tag2");
    AddFirstFixtureTag(n);
    AddSecondFixtureTag(n);
  }

  lemma AddFirstFixtureTag(n: nat)
    ensures Tags.WellFormed(Tags.TagState(map[], n))
    ensures Tags.SaveTag(Tags.TagState(map[], n), "tag1") == Tags.TagState(map[n := TagDoc("tag1", 1)], n + 1)
  {
    StoredName("tag1");
    assert FindOne(map[], Tags.NameQuery("tag1"), n) == None;
  }

  lemma AddSecondFixtureTag(n: nat)
    ensures Tags.WellFormed(Tags.TagState(map[n := TagDoc("tag1", 1)], n + 1))
    ensures Tags.SaveTag(Tags.TagState(map[n := TagDoc("tag1", 1)], n + 1), "tag2") ==
      Tags.TagState(map[n := TagDoc("tag1", 1), n + 1 := TagDoc("tag2", 1)], n + 2)
  {
    assert !Matches(TagDoc("tag1", 1), Tags.NameQuery("tag2")) by {
      assert Get(TagDoc("tag1", 1), "name") != Str("tag2");
    }
    assert FindOne(map[n := TagDoc("tag1", 1)], Tags.NameQuery("tag2"), n + 1) == None;
    StoredName("tag2");
  }

  lemma StoredName(name: string)
    ensures Tags.Stored(map["name" := Str(name)]) == Some(TagDoc(name, 1))
  {
  }

  /** The second fixture's tags: `tag1` is bumped, `tag3` is new. */
  lemma SeedSecondTags(n: nat)
    ensures Tags.WellFormed(Tags.TagState(map[n := TagDoc("tag1", 1), n + 1 := TagDoc("tag2", 1)], n + 4))
    ensures Tags.SaveTags(Tags.TagState(map[n := TagDoc("tag1", 1), n + 1 := TagDoc("tag2", 1)], n + 4), ["tag1", "tag3"]) ==
      Tags.TagState(map[n := TagDoc("tag1", 2), n + 1 := TagDoc("tag2", 1), n + 4 := TagDoc("tag3", 1)], n + 5)
  {
    var u0 := Tags.TagState(map[n := TagDoc("tag1", 1), n + 1 := TagDoc("tag2", 1)], n + 4);
    SaveTwoTags(u0, "tag1", "tag3");
    BumpFirstFixtureTag(n);
    AddThirdFixtureTag(n);
  }

  lemma BumpFirstFixtureTag(n: nat)
    ensures Tags.WellFormed(Tags.TagState(map[n := TagDoc("tag1", 1), n + 1 := TagDoc("tag2", 1)], n + 4))
    ensures Tags.SaveTag(Tags.TagState(map[n := TagDoc("tag1", 1), n + 1 := TagDoc("tag2", 1)], n + 4), "tag1") ==
      Tags.TagState(map[n := TagDoc("tag1", 2), n + 1 := TagDoc("tag2", 1)], n + 4)
  {
    var c := map[n := TagDoc("tag1", 1), n + 1 := TagDoc("tag2", 1)];
    var q := Tags.NameQuery("tag1");
    assert Matches(c[n], q);
    assert !Matches(c[n + 1], q) by {
      assert Get(c[n + 1], "name") != q["name"];
    }
    assert FindOne(c, q, n + 4) == Some(n);
    BumpTagDoc("tag1", 1);
    assert c[n := TagDoc("tag1", 2)] == map[n := TagDoc("tag1", 2), n + 1 := TagDoc("tag2", 1)];
  }

  lemma BumpTagDoc(name: string, k: int)
    ensures TagDoc(name, k)["number" := Num(Tags.Number(TagDoc(name, k)) + 1)] == TagDoc(name, k + 1)
  {
  }

  lemma AddThirdFixtureTag(n: nat)
    ensures Tags.WellFormed(Tags.TagState(map[n := TagDoc("tag1", 2), n + 1 := TagDoc("tag2", 1)], n + 4))
    ensures Tags.SaveTag(Tags.TagState(map[n := TagDoc("tag1", 2), n + 1 := TagDoc("tag2", 1)], n + 4), "tag3") ==
      Tags.TagState(map[n := TagDoc("tag1", 2), n + 1 := TagDoc("tag2", 1), n + 4 := TagDoc("tag3", 1)], n + 5)
  {
    var c := map[n := TagDoc("tag1", 2), n + 1 := TagDoc("tag2", 1)];
    var q := Tags.NameQuery("tag3");
    assert !Matches(c[n], q) by {
      assert Get(c[n], "name") != q["name"];
    }
    assert !Matches(c[n + 1], q) by {
      assert Get(c[n + 1], "name") != q["name"];
    }
    assert FindOne(c, q, n + 4) == None;
    assert Tags.Stored(map["name" := Str("tag3")]).value == TagDoc("tag3", 1);
  }

  /** Save one fixture article as the seed routine does: its tags, its
      category, then the article itself. */
  method Publish(store: Store, names: seq<string>, article: Doc)
    requires store.Valid()
    modifies store
    ensures store.Valid() && store.Current() == PublishArticle(old(store.Current()), names, article)
    ensures store.body == old(store.body) && store.status == old(store.status)
  {
    store.SaveTags(names);
    store.SaveCategory(Get(article, "category"));
    store.InsertDoc(Article, article);
  }

  /** The seed routine, step by step on the live store. */
  method Seed(store: Store)
    requires store.Valid()
    modifies store
    ensures store.Valid() && store.Current() == SeedSpec(old(store.Current()))
    ensures store.body == old(store.body) && store.status == old(store.status)
  {
    ghost var s0 := store.Current();
    store.db := store.db.(categories := map[]);
    store.db := store.db.(articles := map[]);
    store.db := store.db.(tags := map[]);
    ghost var w := store.Current();
    assert w == Wipe(s0);
    Publish(store, Article1Tags, Article1);
    Publish(store, Article2Tags, Article2);
  }
}
