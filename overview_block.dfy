/**
 * BlogOverviewBlock and its two configuration-only subclasses. The class of
 * a block (static::class) is its variant; every variant runs the same code
 * and differs only in the configuration it reads and in its class name.
 */
module ElementalBlog {
  import opened Collaborators
  import opened BlockConfig
  import opened CacheKeys
  import opened Resolvers
  import PaginationBlock
  import WidgetsBlock

  datatype Variant = Overview | Pagination | Widgets

  /** static::config() for each class. */
  function ConfigOf(v: Variant): Config
  {
    match v
    case Overview => OverviewConfig
    case Pagination => PaginationBlock.PaginationConfig
    case Widgets => WidgetsBlock.WidgetsConfig
  }

  /** The PHP namespace the three classes are declared in. */
  const Namespace := "ChrisPenny\\ElementalBlog\\Model\\"

  function ShortName(v: Variant): string
  {
    match v
    case Overview => "BlogOverviewBlock"
    case Pagination => "BlogPaginationBlock"
    case Widgets => "BlogWidgetsBlock"
  }

  /** static::class: the fully qualified PHP class name. */
  function ClassName(v: Variant): string
  {
    Namespace + ShortName(v)
  }

  /** No class name contains '-', and the three are distinct. */
  lemma ClassNamesDistinct(v: Variant, w: Variant)
    ensures SeparatorFree(ClassName(v))
    ensures ClassName(v) == ClassName(w) ==> v == w
  {
    var k := |Namespace| + 4;
    assert ClassName(Overview)[k] == 'O';
    assert ClassName(Pagination)[k] == 'P';
    assert ClassName(Widgets)[k] == 'W';
  }

  /**
   * Every variant asks for a default title, so populating defaults always
   * leaves the title equal to the block's type; the toggles are the variant's.
   */
  lemma VariantDefaults(v: Variant, current: Defaults)
    ensures PopulatedDefaults(ConfigOf(v), current).title == ConfigOf(v).defaultTitle
    ensures v == Overview ==> PopulatedDefaults(ConfigOf(v), current) == Defaults("Blog Overview", 1, 0)
    ensures v == Pagination ==> PopulatedDefaults(ConfigOf(v), current) == Defaults("Blog Pagination", 1, 0)
    ensures v == Widgets ==> PopulatedDefaults(ConfigOf(v), current) == Defaults("Blog Widgets", 0, 1)
  {
    match v
    case Overview => OverviewDefaults(current);
    case Pagination => PaginationBlock.PaginationDefaults(current);
    case Widgets => WidgetsBlock.WidgetsDefaults(current);
  }

  /**
   * Blocks of different classes never share a cache key, whatever their IDs,
   * LastEdited values and posts: the class name is the first component and
   * contains no '-', so the key's first '-' ends it.
   */
  lemma CacheKeysSeparateClasses(v: Variant, w: Variant, id1: nat, id2: nat, e1: string, e2: string,
                                 p1: PostList, p2: PostList)
    requires v != w
    ensures CacheKey(ClassName(v), id1, e1, p1) != CacheKey(ClassName(w), id2, e2, p2)
  {
    ClassNamesDistinct(v, w);
    ClassNamesDistinct(w, v);
    CacheKeyLayout(ClassName(v), id1, e1, p1);
    CacheKeyLayout(ClassName(w), id2, e2, p2);
    if CacheKey(ClassName(v), id1, e1, p1) == CacheKey(ClassName(w), id2, e2, p2) {
      var rest1 := Decimal(id1) + "-" + (e1 + "-" + (Decimal(|p1|) + "-" + NullableText(LatestEdit(p1))));
      var rest2 := Decimal(id2) + "-" + (e2 + "-" + (Decimal(|p2|) + "-" + NullableText(LatestEdit(p2))));
      SplitAtSeparator(ClassName(v), rest1, ClassName(w), rest2);
    }
  }

  /** Three posts, the latest of which was edited "2024-01-02". */
  const ExamplePosts: PostList := [Post(1, "2023-12-31"), Post(2, "2024-01-02"), Post(3, "2024-01-01")]

  lemma ExampleLatestEdit()
    ensures LatestEdit(ExamplePosts) == Some("2024-01-02")
  {
    ExampleOrder();
    LatestOfThree(ExamplePosts[0], ExamplePosts[1], ExamplePosts[2]);
    assert ExamplePosts == [ExamplePosts[0], ExamplePosts[1], ExamplePosts[2]];
  }

  /** The latest of three posts whose second is the latest. */
  lemma LatestOfThree(p1: Post, p2: Post, p3: Post)
    requires LexLe(p3.lastEdited, p2.lastEdited) && !LexLe(p2.lastEdited, p1.lastEdited)
    ensures LatestEdit([p1, p2, p3]) == Some(p2.lastEdited)
  {
    LatestEditStep(p3, []);
    assert [p3] == [p3] + [];
    LatestEditStep(p2, [p3]);
    assert [p2, p3] == [p2] + [p3];
    LatestEditStep(p1, [p2, p3]);
    assert [p1, p2, p3] == [p1] + [p2, p3];
  }

  lemma ExampleOrder()
    ensures LexLe("2024-01-01", "2024-01-02")
    ensures !LexLe("2024-01-02", "2023-12-31")
  {
  }

  /**
   * An overview block with ID 5 and LastEdited "2024-01-01" over those posts
   * has its fully qualified class name followed by "-5-2024-01-01-3-2024-01-02"
   * as its key.
   */
  lemma CacheKeyExample()
    ensures CacheKey(ClassName(Overview), 5, "2024-01-01", ExamplePosts)
         == ClassName(Overview) + "-5-2024-01-01-3-2024-01-02"
  {
    ExampleKeyAfterClassName(ClassName(Overview));
  }

  lemma ExampleKeyAfterClassName(className: string)
    ensures CacheKey(className, 5, "2024-01-01", ExamplePosts) == className + "-5-2024-01-01-3-2024-01-02"
  {
    ExampleLatestEdit();
    var id, count, latest := Decimal(5), Decimal(|ExamplePosts|), NullableText(LatestEdit(ExamplePosts));
    assert id == "5";
    assert count == "3";
    assert latest == "2024-01-02";
    CacheKeyLayout(className, 5, "2024-01-01", ExamplePosts);
    ExampleTail(className, id, count, latest);
  }

  lemma ExampleTail(className: string, id: string, count: string, latest: string)
    requires id == "5" && count == "3" && latest == "2024-01-02"
    ensures className + "-" + (id + "-" + ("2024-01-01" + "-" + (count + "-" + latest)))
         == className + "-5-2024-01-01-3-2024-01-02"
  {
    var tail := id + "-" + ("2024-01-01" + "-" + (count + "-" + latest));
    assert tail == "5-2024-01-01-3-2024-01-02";
    assert className + "-" + tail == className + ("-" + tail);
  }

  class BlogOverviewBlock {
    /** The block's class. */
    const variant: Variant
    /** The extensions registered on the block's class. */
    const extensions: Extensions

    var id: nat
    var lastEdited: string
    var title: string
    var showPagination: int
    var showWidgets: int

    // Per-instance memo fields; null means "not yet resolved".
    var blogPosts: Mixed<PostList>
    var paginatedList: Mixed<PaginatedList>
    var widgetArea: Mixed<WidgetArea>
    var cacheKey: Mixed<string>

    /** A block as loaded: its record fields, and nothing resolved yet. */
    constructor (variant: Variant, extensions: Extensions, id: nat, lastEdited: string,
                 title: string, showPagination: int, showWidgets: int)
      ensures this.variant == variant && this.extensions == extensions
      ensures this.id == id && this.lastEdited == lastEdited && this.title == title
      ensures this.showPagination == showPagination && this.showWidgets == showWidgets
      ensures blogPosts == Null && paginatedList == Null && widgetArea == Null && cacheKey == Null
    {
      this.variant := variant;
      this.extensions := extensions;
      this.id := id;
      this.lastEdited := lastEdited;
      this.title := title;
      this.showPagination := showPagination;
      this.showWidgets := showWidgets;
      blogPosts := Null;
      paginatedList := Null;
      widgetArea := Null;
      cacheKey := Null;
    }

    /** The block's type as shown in the CMS: its class's default title. */
    function GetType(): (t: string)
      ensures variant == Overview ==> t == "Blog Overview"
      ensures variant == Pagination ==> t == "Blog Pagination"
      ensures variant == Widgets ==> t == "Blog Widgets"
    {
      ConfigOf(variant).defaultTitle
    }

    /**
     * Sets the title to the class's default title when the class asks for
     * one, and both toggles to the class's defaults.
     */
    method PopulateDefaults()
      modifies this`title, this`showPagination, this`showWidgets
      ensures Defaults(title, showPagination, showWidgets)
           == PopulatedDefaults(ConfigOf(variant), old(Defaults(title, showPagination, showWidgets)))
      ensures title == GetType()
    {
      var config := ConfigOf(variant);
      if config.setDefaultTitle {
        title := config.defaultTitle;
      }
      showPagination := config.paginationFieldDefault;
      showWidgets := config.widgetsFieldDefault;
      VariantDefaults(variant, old(Defaults(title, showPagination, showWidgets)));
    }

    /** The posts the block shows, resolved once and memoised. */
    method GetBlogPosts(ctx: Context) returns (r: Result<Option<PostList>>)
      modifies this`blogPosts
      ensures Call(r, blogPosts) == BlogPostsCall(old(blogPosts), ctx, extensions)
      ensures !old(blogPosts).Null? ==> blogPosts == old(blogPosts) && r == ReturnAs(blogPosts)
    {
      if !blogPosts.Null? {
        return ReturnAs(blogPosts);
      }
      var posts: Mixed<PostList>;
      if ctx.page.blog.Some? {
        posts := Instance(ctx.page.blog.value);
      } else {
        posts := Instance(ctx.allPosts);
      }
      posts := extensions.updateBlogPosts(posts);
      blogPosts := posts;
      r := ReturnAs(blogPosts);
    }

    /** The paginated list the block shows, resolved once and memoised. */
    method GetPaginatedList(ctx: Context) returns (r: Result<Option<PaginatedList>>)
      modifies this`paginatedList, this`blogPosts
      ensures PostsCall(r, paginatedList, blogPosts)
           == PaginatedListCall(old(paginatedList), old(blogPosts), ctx, extensions)
      ensures !old(paginatedList).Null? ==>
        paginatedList == old(paginatedList) && blogPosts == old(blogPosts) && r == ReturnAs(paginatedList)
    {
      if !paginatedList.Null? {
        return ReturnAs(paginatedList);
      }
      var list: Mixed<PaginatedList>;
      match ctx.controller {
        case BlogController(native) =>
          list := Instance(native);
        case OtherController(custom) =>
          if custom.Some? {
            list := custom.value;
          } else {
            var posts := GetBlogPosts(ctx);
            if posts.Err? {
              return Err(posts.error);
            }
            list := Instance(Wrapping(posts.value));
          }
      }
      list := extensions.updatePaginatedList(list);
      paginatedList := list;
      r := ReturnAs(paginatedList);
    }

    /** The widget area the block shows, resolved once and memoised when not null. */
    method SideBarView(ctx: Context) returns (r: Result<Option<WidgetArea>>)
      modifies this`widgetArea
      ensures Call(r, widgetArea) == SideBarViewCall(old(widgetArea), ctx.page, extensions)
      ensures !old(widgetArea).Null? ==> widgetArea == old(widgetArea) && r == ReturnAs(widgetArea)
    {
      if !widgetArea.Null? {
        return ReturnAs(widgetArea);
      }
      var page := ctx.page;
      if !page.hasWidgetExtension {
        if page.sideBarView.Some? {
          var area := page.sideBarView.value;
          if !area.Instance? {
            return Err(Exception(SideBarTypeMessage));
          }
          widgetArea := area;
          return ReturnAs(widgetArea);
        }
        return Ok(None);
      }
      if page.inheritSideBar && page.parent.Some? && page.parent.value.sideBarView.Some? {
        var area := page.parent.value.sideBarView.value;
        area := extensions.updateWidgetArea(area);
        widgetArea := area;
        return ReturnAs(widgetArea);
      }
      if page.sideBar.Exists() {
        var area := Instance(page.sideBar);
        area := extensions.updateWidgetArea(area);
        widgetArea := area;
        return ReturnAs(widgetArea);
      }
      return Ok(None);
    }

    /** The block's partial-cache key, computed once and memoised. */
    method GetCacheKey(ctx: Context) returns (r: Result<Option<string>>)
      modifies this`cacheKey, this`blogPosts
      ensures PostsCall(r, cacheKey, blogPosts)
           == CacheKeyCall(old(cacheKey), old(blogPosts), ClassName(variant), id, lastEdited, ctx, extensions)
      ensures !old(cacheKey).Null? ==>
        cacheKey == old(cacheKey) && blogPosts == old(blogPosts) && r == ReturnAs(cacheKey)
    {
      if !cacheKey.Null? {
        return ReturnAs(cacheKey);
      }
      var counted := GetBlogPosts(ctx);
      if counted.Err? {
        return Err(counted.error);
      }
      if counted.value.None? {
        return Err(NullMemberCall);
      }
      // the list is memoised now, so the second call returns it again
      var maximised := GetBlogPosts(ctx);
      assert maximised == counted;
      var key: Mixed<string> := Instance(Implode(Separator, [
        ClassName(variant),
        Decimal(id),
        lastEdited,
        Decimal(|counted.value.value|),
        NullableText(LatestEdit(maximised.value.value))
      ]));
      key := extensions.updateCacheKey(key);
      cacheKey := key;
      r := ReturnAs(cacheKey);
    }
  }

  /**
   * Two renders of one block without extensions: the first getCacheKey()
   * gives the key over the posts of the first context (the Blog's own posts,
   * or every post off a Blog page), and the second gives that same key even
   * when the page, its posts and the controller have all changed.
   */
  method CacheKeyStableAcrossCalls(v: Variant, id: nat, lastEdited: string, ctx1: Context, ctx2: Context)
    returns (first: Result<Option<string>>, second: Result<Option<string>>)
    ensures first == Ok(Some(CacheKey(ClassName(v), id, lastEdited, PostSource(ctx1.page, ctx1.allPosts))))
    ensures second == first
  {
    var block := new BlogOverviewBlock(v, NoExtensions, id, lastEdited, "", 0, 0);
    CacheKeyFromPosts(Null, ClassName(v), id, lastEdited, ctx1, NoExtensions);
    first := block.GetCacheKey(ctx1);
    second := block.GetCacheKey(ctx2);
  }
}
