/** The post records of the index page and the static-generation step that
    produces the first page of them (`getStaticProps` in src/pages/index.tsx). */
module Posts {
  import opened JsValues

  /** The custom type of blog-post documents in the content repository. */
  const PostType: string := "post"

  /** Seconds between regenerations of the static index page: 24 hours. */
  const RevalidateSeconds: nat := 60 * 60 * 24

  datatype PostData = PostData(title: string, subtitle: string, author: string)

  /** A post as the index page holds it. */
  datatype Post = Post(uid: Option<string>, firstPublicationDate: Option<string>, data: PostData)

  /** One page of posts plus the locator of the next page (`null` at the end). */
  datatype PostPagination = PostPagination(nextPage: Option<string>, results: seq<Post>)

  /** The fields of a document's `data` that the query asks for. */
  datatype DocumentData = DocumentData(title: string, subtitle: string, author: string)

  /** A document as the content API returns it. `id`, `tags` and
      `lastPublicationDate` only mirror the API's shape: no member reads them,
      and the projection does not carry them (nor `docType`) into a `Post`. */
  datatype Document = Document(
    id: string,
    uid: Option<string>,
    docType: string,
    tags: seq<string>,
    firstPublicationDate: Option<string>,
    lastPublicationDate: Option<string>,
    data: DocumentData)

  /** The paginated answer of the content API's query endpoint. `page`,
      `totalPages` and `prevPage` only mirror the API's shape; the index page
      reads `nextPage` and `results`. */
  datatype QueryResponse = QueryResponse(
    page: nat,
    totalPages: nat,
    nextPage: Option<string>,
    prevPage: Option<string>,
    results: seq<Document>)

  datatype HomeProps = HomeProps(postsPagination: PostPagination, preview: bool)

  datatype StaticProps = StaticProps(props: HomeProps, revalidate: nat)

  /** The `Post` built from one document. */
  function ProjectPost(d: Document): Post
  {
    Post(d.uid, d.firstPublicationDate, PostData(d.data.title, d.data.subtitle, d.data.author))
  }

  /** Every document mapped to a post, in the same order; each post keeps the
      document's uid, first publication date, title, subtitle and author. */
  function ProjectResults(docs: seq<Document>): (r: seq<Post>)
    ensures |r| == |docs|
    ensures forall i :: 0 <= i < |docs| ==>
      && r[i].uid == docs[i].uid
      && r[i].firstPublicationDate == docs[i].firstPublicationDate
      && r[i].data.title == docs[i].data.title
      && r[i].data.subtitle == docs[i].data.subtitle
      && r[i].data.author == docs[i].data.author
  {
    if docs == [] then [] else [ProjectPost(docs[0])] + ProjectResults(docs[1..])
  }

  /** Projecting two result lists one after the other is projecting their
      concatenation. */
  lemma ProjectResultsAppend(a: seq<Document>, b: seq<Document>)
    ensures ProjectResults(a + b) == ProjectResults(a) + ProjectResults(b)
  {
  }

  /** The props of the index page: the projected results with the query's
      next-page locator, the preview flag (false when absent) and a one-day
      revalidation interval. */
  function GetStaticProps(response: QueryResponse, preview: Option<bool>): (r: StaticProps)
    ensures r.props.postsPagination.nextPage == response.nextPage
    ensures r.props.postsPagination.results == ProjectResults(response.results)
    ensures r.props.preview <==> preview == Some(true)
    ensures r.revalidate == 86400
  {
    var posts := ProjectResults(response.results);
    var isPreview := match preview case None => false case Some(b) => b;
    StaticProps(HomeProps(PostPagination(response.nextPage, posts), isPreview), RevalidateSeconds)
  }
}
