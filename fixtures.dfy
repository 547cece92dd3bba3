/** The fixtures of the seeding routine that runs when the API module
    loads, and the state change it makes: empty the category, article and
    tag collections, then save two fixture articles through the same tag
    and category steps as article creation. */
module Fixtures {
  import opened Optional
  import opened Documents
  import opened Actions
  import Tags

  /** The three collections the seed routine empties; users are kept. */
  function Wipe(st: State): (r: State)
    ensures r.db.users == st.db.users && r.next == st.next
  {
    State(Db(map[], map[], map[], st.db.users), st.next)
  }

  function Fixture(title: string, tags: seq<string>): (d: Doc)
    ensures Get(d, "category") == Str("test") && Get(d, "title") == Str(title)
  {
    map["title" := Str(title), "tags" := Strs(tags), "excerpt" := Str("excerpt"),
        "content" := Str("content"), "category" := Str("test")]
  }

  /** The tag lists of the fixtures, shared by the fixtures and the seed. */
  const Article1Tags: seq<string> := ["tag1", "tag2"]
  const Article2Tags: seq<string> := ["tag1", "tag3"]

  const Article1: Doc := Fixture("test1", Article1Tags)
  const Article2: Doc := Fixture("test2", Article2Tags)
  /** Defined by the seed routine but never saved. */
  const Article3: Doc := Fixture("test3", ["tag1", "tag4"])

  /** The seed routine: wipe categories, articles and tags, then save the
      first two fixture articles with their tags and categories. */
  function SeedSpec(st: State): (r: State)
    requires WellFormed(st)
    ensures WellFormed(r)
  {
    var wiped := Wipe(st);
    PublishArticle(PublishArticle(wiped, Article1Tags, Article1), Article2Tags, Article2)
  }

  function TagDoc(name: string, number: int): (d: Doc)
    ensures Get(d, "name") == Str(name) && Get(d, "number") == Num(number)
  {
    map["name" := Str(name), "number" := Num(number)]
  }

  function TestCategory(): Doc {
    map["name" := Str("test")]
  }

  /** The store after the seed, written out. */
  function Seeded(users: Collection, n: nat): State {
    State(Db(map[n := TagDoc("tag1", 2), n + 1 := TagDoc("tag2", 1), n + 4 := TagDoc("tag3", 1)],
             map[n + 2 := TestCategory(), n + 5 := TestCategory()],
             map[n + 3 := Article1, n + 6 := Article2], users), n + 7)
  }
}
