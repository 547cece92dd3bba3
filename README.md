# New-Blog core in Dafny

This project models the two pieces of logic in the New-Blog blog server.

**The resource action factory and its seeding routine.** This is `service/api/actions.js`.
- One set of handlers serves every model: `find`, `create`, `findById`, `updateById`, `deleteById`, `login` and `register`.
- The handlers read and change a document store, then record their answer in the response fields `body` and `status`.
- Creating an article first saves its tags (`saveTags`) and its category (`saveCategory`).
- When the module loads, a seeding routine wipes the categories, articles and tags, then saves two fixture articles.

**The SSR front server.** This is `client/server.js`.
- It cuts the app anchor out of the page template (`handleHtml`).
- It picks the cache lifetime of its static mounts.
- Its catch-all page handler answers "waiting" until a renderer exists. After that it sets its headers and streams the page, or answers 404 or 500 when rendering fails.

Layout, one module per file:
- `optional.dfy` (`Optional`): the `Option` type.
- `documents.dfy` (`Documents`): the document store as the handlers use it.
  - A document is a map from field names to values. An absent field reads as `Null`.
  - A query matches a document when every field it lists holds exactly the given value.
  - A collection maps ids to documents. Ids come from one increasing counter, so a smaller id means an older document.
  - `findOne` answers with the oldest match. `find` answers with all matches, oldest first.
- `tags.dfy` (`Tags`): the tag schema and `saveTags`.
  - The schema defaults `number` to 1.
  - A `number` that is not a number is refused, and the write fails.
  - `saveTags` is modelled as one step per name, taken in list order.
- `actions.dfy` (`Actions`): the store state as a value (`State`) and the specification functions of the handlers.
  - The class `Store` holds the collections, the id counter, `body` and `status`.
  - It has one method per handler.
- `fixtures.dfy` (`Fixtures`): the seed fixtures and `SeedSpec`, the state change the seeding routine makes.
- `seed.dfy` (`Seeding`): the seeding routine on a live `Store`, and the proof of the state it leaves.
- `template.dfy` (`HtmlTemplate`): JavaScript's `split` with a non-empty separator, and `handleHtml`.
- `front_server.dfy` (`FrontServer`): the server pieces.
  - The function `MaxAge` gives the `maxAge` option of the static mounts. `express.static` reads it as milliseconds.
  - The function `ErrorResponse` picks the 404/500 answer.
  - The class `Response` records status, headers and what was sent.
  - The class `Server` holds the renderer and template variables and the page handler.

## Model

| member | source | states |
|---|---|---|
| Documents.Matches | service/api/actions.js:13 | a document matches when each queried field is present with the queried value, or absent when the query asks for null; the empty query matches every document |
| Documents.MatchIds | service/api/actions.js:13 | the ids returned are exactly the matching ids below the counter, strictly increasing (oldest first) |
| Documents.MatchIdsCount | service/api/actions.js:13 | the matching ids are listed once each: there are as many as there are matching documents |
| Documents.FindAll | service/api/actions.js:13 | `find` returns one entry per matching document, oldest first: the documents of the matching ids in order, as many as there are matching documents, and nothing that does not match |
| Documents.FindsEqualDocsTwice | service/api/actions.js:13 | two equal matching documents under different ids give two entries, both that document |
| Documents.FindOne | service/api/actions.js:62 | `findOne` finds nothing exactly when no document matches; otherwise it finds a matching document with the smallest id |
| Documents.FindOneSameMatches | service/api/actions.js:105 | the answer of `findOne` depends only on which documents match |
| Documents.FindOneAfterUpdate | service/api/actions.js:108 | rewriting a document without changing whether it matches leaves the answer of `findOne` unchanged |
| Documents.FindOneAfterInsert | service/api/actions.js:115-117 | after an insert under a fresh id, `findOne` finds the old match if there was one, else the new document if it matches, else nothing |
| Tags.Stored | server/models/tag.js:2-8 | a new tag keeps every field of its payload; `number` defaults to 1 when absent; the create fails exactly when the payload holds a `number` that is not a number |
| Tags.Updated | server/models/tag.js:4-7 | an update fails exactly when it carries a non-numeric `number`; otherwise the tag keeps a numeric `number` |
| Tags.SaveTags | service/api/actions.js:99-133 | the whole `saveTags` keeps every tag numbered and every id below the counter, and removes no tag |
| Tags.SaveTag | service/api/actions.js:100-127 | one `saveTags` step keeps every tag numbered and every id below the counter, and removes no tag |
| Tags.SaveTagExisting | service/api/actions.js:105-111 | for a name already stored, the oldest tag of that name has its `number` raised by exactly 1; no tag is created and no other tag changes |
| Tags.SaveTagNew | service/api/actions.js:114-117 | for a name not stored, exactly one tag is created, under the next id, with that name and `number` 1; no other tag changes |
| Tags.SaveTagUsage | service/api/actions.js:104-119 | one step raises the counter found under its own name by 1 and leaves the counter under every other name unchanged |
| Tags.SaveTagsUsage | service/api/actions.js:99-133 | after `saveTags(names)` the counter under each name has risen by the number of times the name occurs in the list |
| Tags.SaveTagKeepsNamesUnique | service/api/actions.js:105-117 | if no two tags share a name before a step, none do after it |
| Tags.SaveTagsKeepsNamesUnique | service/api/actions.js:99-133 | if no two tags share a name before `saveTags`, none do after it |
| Actions.CreateSpec | service/api/actions.js:18-30 | `create` fails exactly when an article's `tags` is not a list, or a tag payload holds a `number` that is not a number; a successful `create` of any model but a tag answers with the payload as given |
| Actions.AddCategoryInserts | service/api/actions.js:135-141 | `saveCategory` always adds one category with that name under a fresh id, even when one of that name exists; nothing else changes |
| Actions.CreateArticle | service/api/actions.js:18-25 | `create` on an article saves the tags, each name's counter rising by its number of occurrences. It inserts one category named after the article's category, whether or not one exists, and stores the article. The ids show the order: every tag id is below the new category's, which is below the new article's. Users are untouched |
| Actions.CreateOther | service/api/actions.js:18-25 | `create` on any other model only stores the document under a fresh id; tags get the default `number` 1; every other collection is unchanged |
| Actions.Store.Find | service/api/actions.js:8-17 | the body becomes the list `FindAll` gives: one entry per matching document, oldest first, and only matching documents |
| Actions.Store.InsertDoc | service/api/actions.js:25 | stores the document under the next id and advances the counter |
| Actions.Store.SaveTags | service/api/actions.js:99-133 | the loop over the names leaves the store as the per-name steps, taken in list order, specify |
| Actions.Store.SaveTag | service/api/actions.js:100-127 | bumps the tag found by name, or creates it, as `Tags.SaveTag` specifies |
| Actions.Store.SaveCategory | service/api/actions.js:135-141 | inserts a category with that name under a fresh id, without looking for an existing one |
| Actions.Store.Create | service/api/actions.js:18-30 | on success the store and body are as `CreateSpec` gives them. On failure nothing changes: the article's `tags` is not a list, or the tag schema refuses the payload |
| Actions.Store.FindById | service/api/actions.js:31-39 | the body becomes the document when the id exists; otherwise the body is untouched |
| Actions.Store.UpdateById | service/api/actions.js:40-48 | the update's fields overwrite the document's, and the body becomes the updated document. A missing id, or a tag update with a non-numeric `number`, leaves store and body untouched |
| Actions.Store.DeleteById | service/api/actions.js:49-57 | an existing id: exactly that document is removed and the status becomes 204. A missing id: store and status are untouched |
| Actions.Store.Login | service/api/actions.js:58-70 | body `{status: 'yes', user}` with the oldest matching user when one exists; `{status: 'no'}` with no user otherwise |
| Actions.Store.Register | service/api/actions.js:71-95 | a taken email is refused first, then a taken name, each with its message and nothing stored; otherwise exactly one user, the payload, is created and the body is `{status: 'yes', user}` |
| Fixtures.SeedSpec | service/api/actions.js:143-216 | the state the seeding routine leaves is well formed: tags are numbered and every id is below the counter |
| Fixtures.Fixture | service/api/actions.js:166-191 | every fixture article has category `test` and its own title |
| Seeding.SeedOutcome | service/api/actions.js:143-216 | whatever the store held before, the seed leaves exactly the written-out state `Seeded` |
| Seeding.SeededContents | service/api/actions.js:143-216 | that state holds only articles `test1` and `test2`, two categories both named `test`, and the tags `tag1` (number 2), `tag2` (1) and `tag3` (1). `article3` is not stored. Users are unchanged. The counter has advanced by 7 |
| Seeding.SeededFindsBothCategories | service/api/actions.js:143-216 | after the seed, `find` on the categories by the name `test` answers two entries, both `{name: 'test'}` |
| Seeding.SeedSkipsThird | service/api/actions.js:184-191 | `article3` is defined but never saved |
| Seeding.Publish | service/api/actions.js:193-216 | saving one fixture runs `saveTags`, then `saveCategory`, then the article's `create`, and leaves the response untouched |
| Seeding.Seed | service/api/actions.js:143-219 | the routine on the live store wipes the three collections and saves the two fixtures, ending in `SeedSpec` of the state before; the response is untouched |
| HtmlTemplate.IndexFrom | client/server.js:37 | finds the first occurrence of the separator at or after a position, or reports that there is none |
| HtmlTemplate.Split | client/server.js:37 | `split` returns at least one section; the sections rejoined with the separator give back the input; no section contains the separator |
| HtmlTemplate.HandleHtml | client/server.js:36-40 | without the anchor the template comes back followed by `undefined`; with it, the result is shorter than the template by at least the anchor's length |
| HtmlTemplate.AnchorApart | client/server.js:37 | the anchor cannot overlap itself: two occurrences are at least its length apart |
| HtmlTemplate.HandleHtmlAbsent | client/server.js:36-40 | without the anchor, `handleHtml` returns the whole template followed by the text `undefined` |
| HtmlTemplate.HandleHtmlOnce | client/server.js:36-40 | with the anchor exactly once, `handleHtml` returns the template with that anchor cut out and everything else in place |
| HtmlTemplate.HandleHtmlRepeated | client/server.js:36-40 | with the anchor more than once, only the text before the first anchor and the text between the first two anchors are kept |
| FrontServer.MaxAge | client/server.js:58-60 | the `maxAge` option is nonzero exactly for a cached mount in production, and is then 604800, which `express.static` reads as milliseconds |
| FrontServer.CacheControlSeconds | client/server.js:58-60 | the `max-age` sent for a `maxAge` in milliseconds is the whole number of seconds it holds, rounded down |
| FrontServer.CachedForMinutes | client/server.js:58-60 | as written, a cached mount in production is sent with `max-age` 604 seconds, far less than a week |
| FrontServer.IntendedMaxAge | client/server.js:58-60 | the intended `maxAge` is nonzero exactly for a cached mount in production |
| FrontServer.IntendedCachedForAWeek | client/server.js:58-60 | with the intended `maxAge`, a cached mount in production is sent with `max-age` one week in seconds, and every other mount with 0 |
| FrontServer.MountLifetimes | client/server.js:64-69 | the service worker is never cached; `/dist` and `/public` get `maxAge` 604800 in production and 0 in development |
| FrontServer.ErrorResponse | client/server.js:81-90 | status 404 with the Page Not Found text exactly when the error's code is 404; otherwise 500 with the Internal Server Error text |
| FrontServer.Response.Fail | client/server.js:81-90 | the error handler sets status and sent body as `ErrorResponse` chooses |
| FrontServer.Server.constructor | client/server.js:16-34 | in production the renderer is built from the bundle and the template is the index page after `handleHtml`; in development both stay unset |
| FrontServer.Server.OnDevBuild | client/server.js:30-33 | the development build callback as written: the renderer is replaced and the template is left as it was |
| FrontServer.Server.OnDevBuildFixed | client/server.js:30-33 | the callback as evidently intended: renderer and template both replaced |
| FrontServer.Server.Get | client/server.js:71-103 | no renderer: only the waiting text is sent, with headers and status untouched. Otherwise `Content-Type` and `Server` are set. Then the error page is sent when rendering fails. A rendered page is streamed through the template, or, with the template unset, the first-chunk listener throws |
| FrontServer.DevBuildLeavesTemplateUnset | client/server.js:30-33 | in development, after a build, rendering a page throws in the first-chunk listener, because the template is still unset |
| FrontServer.DevBuildSetsTemplate | client/server.js:30-33 | with the intended callback, a page is streamed through the latest build's template |

## Left out

- Koa's implicit status is not modelled: a set body makes 200, and status 204 empties the body. `status` records only what a handler sets itself.
- Mongoose casting is not modelled, not even for the tag counter: a numeric string `number` is not cast to a number; it is refused like any other non-number. The article and user schemas are not available, so articles and users are stored as given.
- Ids are natural numbers from one counter. A malformed ObjectId behaves like a missing id, where Mongoose would throw a cast error. The catch blocks make both leave the response untouched.
- A `null` user and a missing user in the login and register replies are the same `None`.
- `saveTags` is modelled as a sequential loop. The `Promise.all` fan-out and the race it allows are not modelled: two concurrent steps for the same new name could both create a tag. A step whose store call throws never resolves its promise, so `saveTags` would hang. That case is not modelled either.
- Logging (`log.error`, `console.log`, `console.error`), the request timing (`Date.now`) and the articles' `createTime` are not modelled.
- A `register` request without a body (a `TypeError` after the body was reset to `{}`) is not modelled. Payloads are always documents.
- `HtmlTemplate.Split` requires a non-empty separator. JavaScript's `split('')` splits into characters, but the server only splits on the fixed anchor.
- The Vue bundle renderer, its LRU cache, the rendered HTML stream and the `<head>` meta injection are left out. A sent page is recorded as `Stream(url, template)`. With a template, the `once('data')` listener computes a chunk from it and discards it. Without one, it throws a `TypeError` on `template.replace`, recorded as `Threw`; the `HTMLStream` it would build also receives `undefined`. The fate of that request afterwards (an unhandled error on the stream) is not modelled.
- Express wiring is left out: compression, favicon, static file serving itself, `listen` and the dev-server setup. The `server/middleware` module is not part of this model.
- Tags.Stored: the tag schema is strict, so Mongoose drops payload fields other than `name` and `number`; the model keeps them. A `null` or empty-string `number` is stored as null by Mongoose; the model refuses it like any other non-number. `name` is not cast to a string.
- Tags.Updated: the same two gaps as `Tags.Stored`. Undeclared update fields are dropped by Mongoose and kept by the model, and a `null` `number` is stored by Mongoose and refused by the model.
- Tags.SaveTag: counters are unbounded integers. In JavaScript they are doubles, so from 2^53 on `++doc.number` no longer changes the stored value, and a fractional counter stays fractional; neither is modelled.
- Documents.Matches: a query value is matched by equality only. MongoDB also matches an array field when the array contains the queried value, so `findOne({name: tag})` and `find` behave differently on array fields; this is not modelled.
- Actions.Store.Find: the query is not cast through the schema. For tags, Mongoose casts a queried `number` such as `"2"` to 2, and a `number` such as `"abc"` raises a cast error that leaves the body untouched; the model compares the raw values and always sets the body to the list of matches.
- FrontServer.ErrorResponse: an error code that is not a number (for example the string `'404'`) is modelled as no code. Both give 500, as `===` does. A render error after streaming has begun (headers already sent) is not modelled.

## Findings

| source | as written | input that shows it | evidently intended | confidence | as-written member | corrected member |
|---|---|---|---|---|---|---|
| client/server.js:30-33 | `template = template` assigns the callback's own `template` parameter to itself. The module-level `template` is never set in development | a development server after any build callback; a page request then renders, and the first-chunk listener throws a `TypeError` on `template.replace` (client/server.js:98) because `template` is undefined | the module-level template is replaced by the build's template, as the renderer is | medium, not executed | FrontServer.DevBuildLeavesTemplateUnset | FrontServer.DevBuildSetsTemplate |
| client/server.js:58-60 | `maxAge` is `60 * 60 * 24 * 7`, a week counted in seconds, but `express.static` takes `maxAge` in milliseconds | any production request under `/dist` or `/public`: `Cache-Control` says `max-age=604`, about ten minutes | a week: `60 * 60 * 24 * 7 * 1000` milliseconds | medium, not executed | FrontServer.CachedForMinutes | FrontServer.IntendedCachedForAWeek |
