# Blog index pagination and preview routing, in Dafny

This project models the two pieces of logic in a statically generated
Next.js blog front-end that pulls its posts from a headless CMS (Prismic).

- **The post index page** (`src/pages/index.tsx`). The page holds two state
  cells: the loaded `posts` and the `pagination` cursor, which is the URL of
  the next page. Both start from the static props. The "load more" button is
  rendered only while the cursor is truthy. `handleLoad` fetches the cursor
  URL, replaces the cursor with the response's `next_page`, and appends the
  response's `results` to the list. It keeps their order and does not remove
  duplicates. `getStaticProps` projects each CMS document into the page's
  `Post` shape and asks for regeneration once a day.
- **The preview endpoint** (`src/pages/api/preview.ts`). `linkResolver` maps
  a document to the route of its page. The handler either answers 401
  "Invalid token", or sets the preview data to `{ ref }` and redirects to the
  resolved URL.

Files:

- `js_values.dfy` (module `JsValues`): the JavaScript semantics the pages
  rely on. These are truthiness (`!!x`, `!x`) and the text a value takes in a
  template literal.
- `posts.dfy` (module `Posts`): the post and document records, the
  projection and `getStaticProps`.
- `home.dfy` (module `Home`): the list state as a value (`ListState`), the
  specification of one load (`AfterLoad`) and of a click (`Click`), lemmas
  about sequences of loads, and the class `PostIndex`. The class holds the two
  state cells, with `HandleLoad` and `ClickLoadMore` methods proved against
  those functions.
- `preview.dfy` (module `Preview`): the link resolver, the post route it
  produces, and the handler's decision.

The network is a parameter. `HandleLoad` receives the outcome of the
`fetch(...).then(json)` chain as a `FetchOutcome` value. The preview handler
receives the URL that Prismic's preview resolver produced.

Three details of the code shape the model. A reader expecting the usual
design of a "load more" controller might assume otherwise:

- `handleLoad` has no "has more" guard of its own. The guard is the
  condition that renders the button (`index.tsx:82`). So `HandleLoad` is
  unguarded, and `ClickLoadMore` models a click on the button, which is a
  no-op without a cursor.
- The chain never looks at `response.ok`. An HTTP error whose body is JSON
  still reaches the setters. Only a network failure, an unparsable body or a
  `null` body leave the state unchanged.
- If the body's `results` is missing or not iterable, spreading it throws
  after `setPagination` already ran. The cursor is then replaced while the
  posts stay as they were, which is a partial update. `AfterLoad` models that
  case.

## Model

| member | source | states |
|---|---|---|
| JsValues.Truthy | src/pages/index.tsx:82-86 | `!!pagination`, the condition that renders the button, holds iff the cursor is present and not the empty string |
| Posts.ProjectResults | src/pages/index.tsx:106-114 | the projection yields one post per document, in the same order, each with the document's uid, first publication date, title, subtitle and author |
| Posts.ProjectResultsAppend | src/pages/index.tsx:106-114 | projecting a concatenation of result lists is the concatenation of the projections |
| Posts.GetStaticProps | src/pages/index.tsx:106-127 | the props carry the projected results and the query's `next_page` unchanged; preview defaults to false; revalidate is 86400 seconds |
| Home.AfterLoad | src/pages/index.tsx:46-53 | old posts are a prefix of the new ones; new posts = old posts ++ delivered results; the length adds up; when the setters run the cursor is exactly the response's `next_page`; on fetch, parse or null-body failure the state is unchanged |
| Home.Click | src/pages/index.tsx:82-86 | a click keeps the old posts as a prefix; it appends the delivered results only while the cursor is truthy; it replaces the cursor with the response's `next_page` only when the cursor was truthy and the chain reached the setters; otherwise the state is unchanged |
| Home.LoadAllPosts | src/pages/index.tsx:51 | after any sequence of loads the list is the initial list followed by all delivered results in delivery order, and its length is the sum |
| Home.LoadAllCursor | src/pages/index.tsx:50 | after a sequence of loads whose last one reaches the setters, the cursor is that last response's `next_page` |
| Home.ExhaustedIsStable | src/pages/index.tsx:82-86 | once the cursor is falsy, any number of clicks leaves the state unchanged |
| Home.InitialFromQuery | src/pages/index.tsx:116-123 | the initial list is the projected query results and the initial cursor is the query's `next_page` |
| Home.PostIndex.constructor | src/pages/index.tsx:36-38 | the posts start as `postsPagination.results` and the cursor as `postsPagination.next_page` |
| Home.PostIndex.HandleLoad | src/pages/index.tsx:46-53 | the new state is `AfterLoad` of the old one; the invariant posts = initial ++ everything delivered is kept |
| Home.PostIndex.ClickLoadMore | src/pages/index.tsx:82-86 | the new state is `Click` of the old one; the same invariant is kept |
| Preview.ResolveLink | src/pages/api/preview.ts:6-11 | a document of the post type goes to "/post/" + uid (`undefined` if absent), any other to "/", and the route is always non-empty and starts with '/' |
| Preview.LinkResolverAsWritten | src/pages/api/preview.ts:6-11 | type `'posts'` goes to "/post/" + uid, any other type to "/", always a non-empty route starting with '/' |
| Preview.LinkResolver | src/pages/api/preview.ts:6-11 | the same rule with the repository's document type `'post'` |
| Preview.PostRouteSlug | src/pages/api/preview.ts:8 | the inverse of the route built there: a route that starts with "/post/" yields the rest, and the prefix plus that rest rebuilds the route; any other route yields nothing |
| Preview.ResolveLinkRoute | src/pages/api/preview.ts:6-11 | reading the slug back from a resolved route gives the uid's template text (`undefined` when absent) iff the document has the post type, and nothing otherwise; the route is "/" iff the type is not the post type |
| JsValues.OptionalTextCollision | src/pages/api/preview.ts:8 | two optional uids render to the same text only when they are equal, or when one is absent and the other is the string "undefined" |
| Preview.PostRoutesCollide | src/pages/api/preview.ts:7-8 | two documents of the post type resolve to the same route if and only if their uids are equal, or one is absent and the other is the string "undefined" |
| Preview.AsWrittenSendsPostsHome | src/pages/api/preview.ts:7 | every document of type `'post'` resolves to "/" under the resolver as written, never to its post page |
| Preview.HandlePreview | src/pages/api/preview.ts:21-32 | a falsy redirect URL gives 401 "Invalid token" with no preview data; otherwise preview data is `{ ref }` and the redirect goes to exactly that URL |
| Preview.ResolvedDocumentRedirects | src/pages/api/preview.ts:17-32 | every route either link resolver produces, and the `'/'` fallback passed to `resolve` at line 19, takes the redirect branch: the handler sets the preview data and redirects to exactly that route, never answering 401 |

## Findings

| source | as written | input that shows it | evidently intended | confidence | as-written member | corrected member |
|---|---|---|---|---|---|---|
| src/pages/api/preview.ts:7 | `doc.type === 'posts'` | any document of type `'post'`, the type queried at src/pages/index.tsx:98. Its preview redirects to "/" instead of "/post/" + uid | compare with `'post'` | medium, not executed | Preview.AsWrittenSendsPostsHome | Preview.LinkResolver |

## Left out

- `dateFormatted` (date-fns `format` with the pt-BR locale): it depends on JavaScript `Date` parsing, the time zone and the library.
- The Prismic client (`prismic.query`, its predicates, `getPreviewResolver(...).resolve`): these are foreign calls. Their results are parameters: a `QueryResponse`, and the redirect URL.
- The `ref: previewData?.ref ?? null` query option and the `fetch`/`pageSize` options: they only parameterise the foreign query.
- The network `fetch` and `response.json()`: their outcome is the `FetchOutcome` parameter.
- Fetched results are treated as `Post` values. In the code, `data.results` are the CMS API's raw documents, appended without the projection that `getStaticProps` applies (`(data: PostPagination)` is only a type annotation). From the second page on, the list also holds fields such as `id`, `type`, `tags` and `last_publication_date`, which the page never reads.
- A `results` value that is a non-array iterable, such as a string spread into characters: `Body` has only "iterable array of posts" or "not iterable".
- A `next_page` or `token` that is not a string (a number, or an array from a repeated query parameter): these are not represented.
- React rendering, JSX and the list markup.
- The stale `posts` closure when clicks overlap: this is asynchronous interleaving. The model applies loads one at a time, each to the current state.
- The HTML text (`Refresh` meta tag, script) that the preview handler writes: it is output plumbing. `Redirect.location` carries the target unchanged.
- src/pages/_document.tsx: static markup only.
- Use of the corrected resolver: it is not wired into anything else, because the resolver is called by foreign code. `ResolvedDocumentRedirects` states the handler's behaviour for both variants.
