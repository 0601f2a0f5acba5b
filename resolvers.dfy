/**
 * What one call of each memoising resolver of a blog block does, as a
 * function of the memo fields before the call and of what the call may
 * consult: the value the caller receives and the memo fields afterwards.
 * The block's methods are proved to behave as these functions say; the
 * lemmas here state what the resolvers promise.
 */
module Resolvers {
  import opened Collaborators
  import opened CacheKeys

  /** One call of a resolver: what the caller receives and what its memo field holds afterwards. */
  datatype Call<+T> = Call(result: Result<Option<T>>, memo: Mixed<T>)

  /** A call of a resolver whose work may also fill the post memo. */
  datatype PostsCall<+T> = PostsCall(result: Result<Option<T>>, memo: Mixed<T>, postsMemo: Mixed<PostList>)

  /** Storing `m` in the memo field and returning it from a method declared `?C`. */
  function Store<T>(m: Mixed<T>): Call<T>
  {
    Call(ReturnAs(m), m)
  }

  const SideBarTypeMessage := "SideBarView expected to return class type WidgetArea"

  // ---------------------------------------------------------------------------
  // getBlogPosts

  /** The posts of the page when it is a Blog, every post otherwise. */
  function PostSource(page: Page, allPosts: PostList): PostList
  {
    if page.blog.Some? then page.blog.value else allPosts
  }

  function BlogPostsCall(memo: Mixed<PostList>, ctx: Context, ext: Extensions): Call<PostList>
  {
    if !memo.Null? then Store(memo)
    else Store(ext.updateBlogPosts(Instance(PostSource(ctx.page, ctx.allPosts))))
  }

  /**
   * With nothing memoised, getBlogPosts passes the Blog page's own posts, or
   * all posts when the page is not a Blog, through `updateBlogPosts` and
   * stores what the hook leaves; without extensions that is the list itself.
   */
  lemma BlogPostsSource(ctx: Context, ext: Extensions)
    ensures ctx.page.blog.Some? ==>
      BlogPostsCall(Null, ctx, ext).memo == ext.updateBlogPosts(Instance(ctx.page.blog.value))
    ensures ctx.page.blog.None? ==>
      BlogPostsCall(Null, ctx, ext).memo == ext.updateBlogPosts(Instance(ctx.allPosts))
    ensures BlogPostsCall(Null, ctx, ext).result == ReturnAs(BlogPostsCall(Null, ctx, ext).memo)
    ensures BlogPostsCall(Null, ctx, NoExtensions)
         == Call(Ok(Some(PostSource(ctx.page, ctx.allPosts))), Instance(PostSource(ctx.page, ctx.allPosts)))
  {
  }

  /**
   * A second call returns what the first stored without consulting the page
   * again, whatever the context; when the first stored null the second
   * computes afresh.
   */
  lemma BlogPostsMemoised(memo: Mixed<PostList>, ctx1: Context, ctx2: Context, ext: Extensions)
    ensures var c := BlogPostsCall(memo, ctx1, ext);
      !c.memo.Null? ==> BlogPostsCall(c.memo, ctx2, ext) == c
    ensures var c := BlogPostsCall(memo, ctx1, ext);
      c.memo.Null? ==> BlogPostsCall(c.memo, ctx2, ext) == BlogPostsCall(Null, ctx2, ext)
    ensures BlogPostsCall(memo, ctx1, ext).result == Ok(None) ==> BlogPostsCall(memo, ctx1, ext).memo == Null
  {
  }

  // ---------------------------------------------------------------------------
  // getPaginatedList

  function PaginatedListCall(memo: Mixed<PaginatedList>, postsMemo: Mixed<PostList>,
                             ctx: Context, ext: Extensions): PostsCall<PaginatedList>
  {
    if !memo.Null? then PostsCall(ReturnAs(memo), memo, postsMemo)
    else
      match ctx.controller
      case BlogController(list) =>
        var stored := ext.updatePaginatedList(Instance(list));
        PostsCall(ReturnAs(stored), stored, postsMemo)
      case OtherController(Some(custom)) =>
        var stored := ext.updatePaginatedList(custom);
        PostsCall(ReturnAs(stored), stored, postsMemo)
      case OtherController(None) =>
        var posts := BlogPostsCall(postsMemo, ctx, ext);
        if posts.result.Err? then PostsCall(Err(posts.result.error), memo, posts.memo)
        else
          var stored := ext.updatePaginatedList(Instance(Wrapping(posts.result.value)));
          PostsCall(ReturnAs(stored), stored, posts.memo)
  }

  /**
   * With nothing memoised, the list comes first from a BlogController's
   * PaginatedList(), then from the controller's own getBlogPostPaginatedList()
   * taken as it is (null or an object of another class included), and only
   * then from a new PaginatedList over getBlogPosts(); only that last way
   * consults or fills the post memo. Each passes `updatePaginatedList`.
   */
  lemma PaginatedListPriority(postsMemo: Mixed<PostList>, ctx: Context, ext: Extensions)
    ensures ctx.controller.BlogController? ==>
      var c := PaginatedListCall(Null, postsMemo, ctx, ext);
      c.memo == ext.updatePaginatedList(Instance(ctx.controller.paginatedList)) &&
      c.result == ReturnAs(c.memo)
    ensures ctx.controller.OtherController? && ctx.controller.customPaginatedList.Some? ==>
      var c := PaginatedListCall(Null, postsMemo, ctx, ext);
      c.memo == ext.updatePaginatedList(ctx.controller.customPaginatedList.value) &&
      c.result == ReturnAs(c.memo)
    ensures !(ctx.controller.OtherController? && ctx.controller.customPaginatedList.None?) ==>
      PaginatedListCall(Null, postsMemo, ctx, ext).postsMemo == postsMemo
    ensures ctx.controller.OtherController? && ctx.controller.customPaginatedList.None? ==>
      var posts := BlogPostsCall(postsMemo, ctx, ext);
      var c := PaginatedListCall(Null, postsMemo, ctx, ext);
      c.postsMemo == posts.memo &&
      (posts.result.Err? ==> c.result == Err(posts.result.error) && c.memo == Null) &&
      (posts.result.Ok? ==>
        c.memo == ext.updatePaginatedList(Instance(Wrapping(posts.result.value))) &&
        c.result == ReturnAs(c.memo))
  {
  }

  /**
   * Without extensions, a controller's custom list is returned verbatim when
   * it is null or a PaginatedList, and an object of another class is stored
   * unchecked and then refused by the declared return type.
   */
  lemma CustomPaginatedListVerbatim(postsMemo: Mixed<PostList>, page: Page, allPosts: PostList,
                                    custom: Mixed<PaginatedList>)
    ensures var c := PaginatedListCall(Null, postsMemo,
                                       Context(page, OtherController(Some(custom)), allPosts), NoExtensions);
      c.memo == custom && c.result == ReturnAs(custom) &&
      (custom.OtherClass? ==> c.result == Err(TypeError))
  {
  }

  /**
   * A second call returns what the first stored, whatever the controller
   * then is; a first call that stored nothing leaves the second to compute
   * afresh.
   */
  lemma PaginatedListMemoised(memo: Mixed<PaginatedList>, postsMemo: Mixed<PostList>,
                              ctx1: Context, ctx2: Context, ext: Extensions)
    ensures var c := PaginatedListCall(memo, postsMemo, ctx1, ext);
      !c.memo.Null? ==> PaginatedListCall(c.memo, c.postsMemo, ctx2, ext) == c
    ensures var c := PaginatedListCall(memo, postsMemo, ctx1, ext);
      c.result == Ok(None) ==> c.memo == Null
  {
  }

  // ---------------------------------------------------------------------------
  // SideBarView

  /** Where SideBarView takes its widget area from, with nothing memoised. */
  datatype SideBarSource =
    | NoSideBar         // nothing to return: the result is null and nothing is stored
    | PageSideBarView   // the page lacks the widget extension but has a SideBarView method
    | ParentSideBar     // the inherited sidebar of the parent
    | OwnSideBar        // the page's own SideBar

  function SideBarSourceOf(page: Page): SideBarSource
  {
    if !page.hasWidgetExtension then
      if page.sideBarView.Some? then PageSideBarView else NoSideBar
    else if page.inheritSideBar && page.parent.Some? && page.parent.value.sideBarView.Some? then
      ParentSideBar
    else if page.sideBar.Exists() then OwnSideBar
    else NoSideBar
  }

  function SideBarViewCall(memo: Mixed<WidgetArea>, page: Page, ext: Extensions): Call<WidgetArea>
  {
    if !memo.Null? then Store(memo)
    else
      match SideBarSourceOf(page)
      case NoSideBar => Call(Ok(None), memo)
      case PageSideBarView =>
        var area := page.sideBarView.value;
        if area.Instance? then Store(area)
        else Call(Err(Exception(SideBarTypeMessage)), memo)
      case ParentSideBar => Store(ext.updateWidgetArea(page.parent.value.sideBarView.value))
      case OwnSideBar => Store(ext.updateWidgetArea(Instance(page.sideBar)))
  }

  /**
   * On a page without the widget extension: no SideBarView method gives
   * null and stores nothing; a method returning anything but a WidgetArea
   * (null included) raises the exception and stores nothing; a WidgetArea is
   * stored and returned as it is, whatever the extensions would do.
   */
  lemma SideBarWithoutWidgetExtension(page: Page, ext: Extensions)
    requires !page.hasWidgetExtension
    ensures page.sideBarView.None? ==> SideBarViewCall(Null, page, ext) == Call(Ok(None), Null)
    ensures page.sideBarView.Some? && !page.sideBarView.value.Instance? ==>
      SideBarViewCall(Null, page, ext) == Call(Err(Exception(SideBarTypeMessage)), Null)
    ensures page.sideBarView.Some? && page.sideBarView.value.Instance? ==>
      SideBarViewCall(Null, page, ext)
        == Call(Ok(Some(page.sideBarView.value.value)), page.sideBarView.value)
  {
  }

  /**
   * The parent's sidebar is used exactly when the page has the widget
   * extension, inherits its sidebar, has a parent, and that parent has a
   * SideBarView method; its value passes `updateWidgetArea` without any
   * type check, and the page's own sidebar plays no part.
   */
  lemma ParentSideBarExactly(page: Page, ext: Extensions, other: WidgetArea)
    ensures SideBarSourceOf(page) == ParentSideBar <==>
      page.hasWidgetExtension && page.inheritSideBar && page.parent.Some?
      && page.parent.value.sideBarView.Some?
    ensures SideBarSourceOf(page) == ParentSideBar ==>
      SideBarViewCall(Null, page, ext) == Store(ext.updateWidgetArea(page.parent.value.sideBarView.value))
      && SideBarViewCall(Null, page.(sideBar := other), ext) == SideBarViewCall(Null, page, ext)
  {
  }

  /**
   * Otherwise, on a page with the widget extension, the page's own sidebar is
   * used exactly when it exists; when it does not the result is null and
   * nothing is stored.
   */
  lemma OwnSideBarExactly(page: Page, ext: Extensions)
    requires page.hasWidgetExtension
    requires !(page.inheritSideBar && page.parent.Some? && page.parent.value.sideBarView.Some?)
    ensures SideBarSourceOf(page) == OwnSideBar <==> page.sideBar.Exists()
    ensures page.sideBar.Exists() ==>
      SideBarViewCall(Null, page, ext) == Store(ext.updateWidgetArea(Instance(page.sideBar)))
    ensures !page.sideBar.Exists() ==> SideBarViewCall(Null, page, ext) == Call(Ok(None), Null)
  {
  }

  /**
   * The only exception SideBarView raises is the one for a page's own
   * SideBarView method returning something other than a WidgetArea; the
   * only other error is the declared return type refusing a parent's or a
   * hook's value of another class.
   */
  lemma SideBarErrors(memo: Mixed<WidgetArea>, page: Page, ext: Extensions)
    ensures var c := SideBarViewCall(memo, page, ext);
      c.result.Err? && c.result.error.Exception? ==>
        memo.Null? && SideBarSourceOf(page) == PageSideBarView && !page.sideBarView.value.Instance?
        && c.result.error.message == SideBarTypeMessage && c.memo == Null
    ensures var c := SideBarViewCall(memo, page, ext);
      c.result.Err? ==> c.result.error.Exception? || c.result.error == TypeError
  {
  }

  /**
   * A second call returns what the first stored, whatever the page then is;
   * a null result is never memoised, so the next call computes afresh.
   */
  lemma SideBarViewMemoised(memo: Mixed<WidgetArea>, page1: Page, page2: Page, ext: Extensions)
    ensures var c := SideBarViewCall(memo, page1, ext);
      !c.memo.Null? ==> SideBarViewCall(c.memo, page2, ext) == c
    ensures var c := SideBarViewCall(memo, page1, ext);
      c.memo.Null? ==> SideBarViewCall(c.memo, page2, ext) == SideBarViewCall(Null, page2, ext)
    ensures var c := SideBarViewCall(memo, page1, ext);
      c.result == Ok(None) ==> c.memo == Null
  {
  }

  // ---------------------------------------------------------------------------
  // getCacheKey

  function CacheKeyCall(memo: Mixed<string>, postsMemo: Mixed<PostList>,
                        className: string, id: nat, lastEdited: string,
                        ctx: Context, ext: Extensions): PostsCall<string>
  {
    if !memo.Null? then PostsCall(ReturnAs(memo), memo, postsMemo)
    else
      // getBlogPosts() is called once for the count and once for the maximum
      var first := BlogPostsCall(postsMemo, ctx, ext);
      match first.result
      case Err(e) => PostsCall(Err(e), memo, first.memo)
      case Ok(None) => PostsCall(Err(NullMemberCall), memo, first.memo)
      case Ok(Some(counted)) =>
        var second := BlogPostsCall(first.memo, ctx, ext);
        match second.result
        case Err(e) => PostsCall(Err(e), memo, second.memo)
        case Ok(None) => PostsCall(Err(NullMemberCall), memo, second.memo)
        case Ok(Some(maximised)) =>
          var key := Implode(Separator, [className, Decimal(id), lastEdited,
                                         Decimal(|counted|), NullableText(LatestEdit(maximised))]);
          var stored := ext.updateCacheKey(Instance(key));
          PostsCall(ReturnAs(stored), stored, second.memo)
  }

  /**
   * With nothing memoised and getBlogPosts() yielding a list, the key is the
   * five components over that one list (the second getBlogPosts() call
   * returns the list the first stored), passed through `updateCacheKey`.
   * When getBlogPosts() fails or yields null, the call fails and no key is
   * stored.
   */
  lemma CacheKeyFromPosts(postsMemo: Mixed<PostList>, className: string, id: nat, lastEdited: string,
                          ctx: Context, ext: Extensions)
    ensures var posts := BlogPostsCall(postsMemo, ctx, ext);
      var c := CacheKeyCall(Null, postsMemo, className, id, lastEdited, ctx, ext);
      c.postsMemo == posts.memo &&
      (posts.result.Ok? && posts.result.value.Some? ==>
        c.memo == ext.updateCacheKey(Instance(CacheKey(className, id, lastEdited, posts.result.value.value)))
        && c.result == ReturnAs(c.memo)) &&
      (posts.result.Err? ==> c == PostsCall(Err(posts.result.error), Null, posts.memo)) &&
      (posts.result == Ok(None) ==> c == PostsCall(Err(NullMemberCall), Null, posts.memo))
  {
    var posts := BlogPostsCall(postsMemo, ctx, ext);
    BlogPostsMemoised(postsMemo, ctx, ctx, ext);
    if posts.result.Ok? && posts.result.value.Some? {
      assert BlogPostsCall(posts.memo, ctx, ext) == posts;
    }
  }

  /**
   * Without extensions, a block on a Blog page gets the key of its class,
   * ID, LastEdited and that Blog's posts.
   */
  lemma CacheKeyOfBlogPage(className: string, id: nat, lastEdited: string, ctx: Context)
    requires ctx.page.blog.Some?
    ensures CacheKeyCall(Null, Null, className, id, lastEdited, ctx, NoExtensions).result
         == Ok(Some(CacheKey(className, id, lastEdited, ctx.page.blog.value)))
  {
    CacheKeyFromPosts(Null, className, id, lastEdited, ctx, NoExtensions);
  }

  /**
   * A key once stored is returned by every later call, whatever the context;
   * a call that returned null (an `updateCacheKey` hook that nulled the key)
   * stored nothing, so the next call computes afresh.
   */
  lemma CacheKeyMemoised(memo: Mixed<string>, postsMemo: Mixed<PostList>,
                         className: string, id: nat, lastEdited: string,
                         ctx1: Context, ctx2: Context, ext: Extensions)
    ensures var c := CacheKeyCall(memo, postsMemo, className, id, lastEdited, ctx1, ext);
      !c.memo.Null? ==> CacheKeyCall(c.memo, c.postsMemo, className, id, lastEdited, ctx2, ext) == c
    ensures var c := CacheKeyCall(memo, postsMemo, className, id, lastEdited, ctx1, ext);
      c.result == Ok(None) ==> c.memo == Null
  {
  }
}
