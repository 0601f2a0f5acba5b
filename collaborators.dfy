/**
 * The collaborators of the blog blocks, reduced to the facts the blocks read
 * from them: the hosting page, the current controller, the posts, the widget
 * areas, and the extension hooks registered on the block.
 */
module Collaborators {

  datatype Option<+T> = None | Some(value: T)

  /**
   * A PHP value as the blocks see it: `null`, an instance of the class the
   * code expects, or an object of some other class (told apart by a handle).
   * Collaborators and extension hooks may hand back any of the three.
   */
  datatype Mixed<+T> = Null | Instance(value: T) | OtherClass(handle: nat)

  /** What a call can raise. */
  datatype Error =
    | Exception(message: string)  // thrown explicitly by the block
    | TypeError                   // a declared nullable return type refused the value
    | NullMemberCall              // a method was called on null

  datatype Result<+T> = Ok(value: T) | Err(error: Error)

  /**
   * Returning `m` from a method declared `?C`: null and instances of C pass,
   * an object of another class is a TypeError.
   */
  function ReturnAs<T>(m: Mixed<T>): Result<Option<T>>
  {
    match m
    case Null => Ok(None)
    case Instance(v) => Ok(Some(v))
    case OtherClass(_) => Err(TypeError)
  }

  /** A blog post; `lastEdited` is its LastEdited column as the database renders it. */
  datatype Post = Post(id: nat, lastEdited: string)

  /** A post list (a DataList): the posts it yields, in order. */
  type PostList = seq<Post>

  /**
   * A paginated list. The paging library is not part of this model: a list is
   * either one a controller produced (opaque, told apart by a handle) or a new
   * one wrapping whatever `getBlogPosts` returned.
   */
  datatype PaginatedList = ControllerList(handle: nat) | Wrapping(source: Option<PostList>)

  /** A widget area record; it exists when it is stored, that is when its ID is positive. */
  datatype WidgetArea = WidgetArea(id: nat, widgets: seq<nat>)
  {
    predicate Exists() { id > 0 }
  }

  /** The parent of a page: whether it has a `SideBarView` method, and what it returns. */
  datatype ParentPage = ParentPage(sideBarView: Option<Mixed<WidgetArea>>)

  /**
   * The page hosting the block.
   *   blog                 Some(posts) when the page is a Blog; posts is its own getBlogPosts()
   *   hasWidgetExtension   whether the page type carries the widget page extension
   *   sideBarView          Some(v) when the page has a `SideBarView` method returning v
   *   inheritSideBar       the page's InheritSideBar flag
   *   parent               the page's parent, if it has one
   *   sideBar              the page's own SideBar relation
   */
  datatype Page = Page(
    blog: Option<PostList>,
    hasWidgetExtension: bool,
    sideBarView: Option<Mixed<WidgetArea>>,
    inheritSideBar: bool,
    parent: Option<ParentPage>,
    sideBar: WidgetArea)

  /**
   * The current controller: a BlogController with its PaginatedList(), or
   * another controller that may have a `getBlogPostPaginatedList` method
   * (Some(v) holds what that method returns).
   */
  datatype Controller =
    | BlogController(paginatedList: PaginatedList)
    | OtherController(customPaginatedList: Option<Mixed<PaginatedList>>)

  /**
   * What a call of a resolver may consult: the page the block sits on, the
   * current controller, and every BlogPost in the database.
   */
  datatype Context = Context(page: Page, controller: Controller, allPosts: PostList)

  /**
   * The extension hooks of the block. Each receives the candidate value by
   * reference and may leave it, replace it, or set it to null.
   */
  datatype Extensions = Extensions(
    updateBlogPosts: Mixed<PostList> -> Mixed<PostList>,
    updatePaginatedList: Mixed<PaginatedList> -> Mixed<PaginatedList>,
    updateWidgetArea: Mixed<WidgetArea> -> Mixed<WidgetArea>,
    updateCacheKey: Mixed<string> -> Mixed<string>)

  /** A block with no extensions: every hook leaves its value as it is. */
  const NoExtensions: Extensions :=
    Extensions(m => m, m => m, m => m, m => m)
}
