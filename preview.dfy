/** The preview entry point (src/pages/api/preview.ts): the link resolver that
    maps a document to the route of its page, and the handler's choice between
    rejecting the request and entering preview mode with a redirect. */
module Preview {
  import opened JsValues
  import opened Posts

  /** The route prefix of a post page (`/post/[slug]`). */
  const PostRoutePrefix: string := "/post/"

  /** A link resolver that sends documents of type `postType` to their post
      page and everything else to the home page. An absent uid renders as
      `undefined`, as JavaScript's template literal does. */
  function ResolveLink(postType: string, doc: Document): (r: string)
    ensures |r| > 0 && r[0] == '/'
    ensures doc.docType == postType ==> r == PostRoutePrefix + OptionalText(doc.uid)
    ensures doc.docType != postType ==> r == "/"
  {
    if doc.docType == postType then PostRoutePrefix + OptionalText(doc.uid) else "/"
  }

  /** `linkResolver` as written: it compares the type with `'posts'`. */
  function LinkResolverAsWritten(doc: Document): (r: string)
    ensures |r| > 0 && r[0] == '/'
    ensures doc.docType == "posts" ==> r == "/post/" + OptionalText(doc.uid)
    ensures doc.docType != "posts" ==> r == "/"
  {
    ResolveLink("posts", doc)
  }

  /** `linkResolver` with the document type the repository actually uses. */
  function LinkResolver(doc: Document): (r: string)
    ensures |r| > 0 && r[0] == '/'
    ensures doc.docType == PostType ==> r == "/post/" + OptionalText(doc.uid)
    ensures doc.docType != PostType ==> r == "/"
  {
    ResolveLink(PostType, doc)
  }

  /** The inverse of the post route built by the link resolver: the text
      after the "/post/" prefix, if the route has that prefix. */
  function PostRouteSlug(route: string): (slug: Option<string>)
    ensures slug.Some? ==> route == PostRoutePrefix + slug.value
    ensures slug.None? ==> !(PostRoutePrefix <= route)
  {
    if PostRoutePrefix <= route then Some(route[|PostRoutePrefix|..]) else None
  }

  /** The route a document resolves to is its post page, carrying the text
      of its uid, exactly when it has the post type; every other document
      goes home. */
  lemma ResolveLinkRoute(postType: string, doc: Document)
    ensures PostRouteSlug(ResolveLink(postType, doc))
         == if doc.docType == postType then Some(OptionalText(doc.uid)) else None
    ensures ResolveLink(postType, doc) == "/" <==> doc.docType != postType
  {
  }

  /** Two documents of the post type share a route exactly when their uids
      are equal, or one is absent and the other is the string "undefined". */
  lemma {:induction false} PostRoutesCollide(postType: string, d1: Document, d2: Document)
    requires d1.docType == postType && d2.docType == postType
    ensures ResolveLink(postType, d1) == ResolveLink(postType, d2) <==>
      || d1.uid == d2.uid
      || (d1.uid == None && d2.uid == Some("undefined"))
      || (d1.uid == Some("undefined") && d2.uid == None)
  {
    var t1, t2 := OptionalText(d1.uid), OptionalText(d2.uid);
    if ResolveLink(postType, d1) == ResolveLink(postType, d2) {
      assert (PostRoutePrefix + t1)[|PostRoutePrefix|..] == t1;
      assert (PostRoutePrefix + t2)[|PostRoutePrefix|..] == t2;
      OptionalTextCollision(d1.uid, d2.uid);
    }
  }

  /** The documents of the repository's post type are never routed to their
      page by `linkResolver` as written: their preview lands on the home page. */
  lemma AsWrittenSendsPostsHome(doc: Document)
    requires doc.docType == PostType
    ensures LinkResolverAsWritten(doc) == "/"
    ensures PostRouteSlug(LinkResolverAsWritten(doc)) == None
    ensures PostRouteSlug(LinkResolver(doc)) == Some(OptionalText(doc.uid))
  {
  }

  /** The preview cookie payload. */
  datatype PreviewData = PreviewData(ref: Option<string>)

  /** What the handler does with the response. */
  datatype PreviewReply =
    | Unauthorized(status: nat, message: string)
    | Redirect(previewData: PreviewData, location: string)

  /** The handler's decision, given the request's `token` and the URL the
      preview resolver produced. */
  function HandlePreview(ref: Option<string>, redirectUrl: Option<string>): (r: PreviewReply)
    ensures r.Unauthorized? <==> !Truthy(redirectUrl)
    ensures r.Unauthorized? ==> r.status == 401 && r.message == "Invalid token"
    ensures r.Redirect? ==> r.previewData == PreviewData(ref)
    ensures r.Redirect? ==> redirectUrl == Some(r.location) && r.location != ""
  {
    if !Truthy(redirectUrl) then Unauthorized(401, "Invalid token")
    else Redirect(PreviewData(ref), redirectUrl.value)
  }

  /** A URL produced by the link resolver, or the `'/'` fallback handed to
      the preview resolver, is never rejected: the handler enters preview
      mode and redirects to exactly that route. */
  lemma ResolvedDocumentRedirects(ref: Option<string>, doc: Document)
    ensures HandlePreview(ref, Some(LinkResolverAsWritten(doc)))
         == Redirect(PreviewData(ref), LinkResolverAsWritten(doc))
    ensures HandlePreview(ref, Some(LinkResolver(doc)))
         == Redirect(PreviewData(ref), LinkResolver(doc))
    ensures HandlePreview(ref, Some("/")) == Redirect(PreviewData(ref), "/")
  {
  }
}
