# Elemental blog blocks: a Dafny model

This project models the content blocks of a SilverStripe Elemental blog module.
There are three classes:

- `BlogOverviewBlock` shows blog posts, pagination and sidebar widgets.
- `BlogPaginationBlock` and `BlogWidgetsBlock` subclass it. They declare only different configuration.

A block resolves four things lazily and keeps each one in a private field for the rest of its life as an object:

- its post list (`getBlogPosts`);
- its paginated list (`getPaginatedList`);
- its sidebar widget area (`SideBarView`);
- its partial-cache key (`getCacheKey`).

`populateDefaults` fills the title and the two toggles from the class's configuration.

## Layout

- `collaborators.dfy` (`Collaborators`): what the block reads from its surroundings.
  - The page is a record of facts: is it a Blog, does it have the widget extension, does it have a `SideBarView` method and what does that method return, `InheritSideBar`, its parent, its own `SideBar`.
  - The controller is a `BlogController` or another controller, which may have a `getBlogPostPaginatedList` method.
  - Posts are records with a `LastEdited` string.
  - Every value a collaborator or hook hands back is a `Mixed<T>`: `null`, an instance of the expected class, or an object of another class.
  - The extension hooks (`updateBlogPosts`, `updatePaginatedList`, `updateWidgetArea`, `updateCacheKey`) are arbitrary functions from `Mixed<T>` to `Mixed<T>`. `NoExtensions` is the identity.
- `block_config.dfy` (`BlockConfig`): the configuration record, `BlogOverviewBlock`'s own values, and what populating defaults does with a configuration.
- `pagination_block.dfy`, `widgets_block.dfy`: the two subclasses' configuration records.
- `cache_key.dfy` (`CacheKeys`):
  - the decimal rendering of integers;
  - the latest `LastEdited` among the posts (SQL `MAX`, as a lexicographic maximum);
  - PHP's `implode`;
  - the key and its injectivity.
- `resolvers.dfy` (`Resolvers`): one call of each memoising resolver, as a pure function. It maps the memo fields before the call and the context to the value returned and the memo fields after. The lemmas state the fallback chains and the memoisation.
- `overview_block.dfy` (`ElementalBlog`): the class `BlogOverviewBlock`.
  - It has the record fields, the four memo fields, and `populateDefaults`, `getType`, `getBlogPosts`, `getPaginatedList`, `SideBarView` and `getCacheKey` as methods.
  - Each method is proved to match its resolver function.
  - The block's class is the `variant` constant. Every variant runs the same methods, so the subclasses inherit all resolution and memoisation unchanged. They differ only in the configuration read by `ConfigOf` and in the class name that heads the cache key.

Semantics taken from PHP:

- A method declared `?C` refuses, at its `return`, an object of another class with a `TypeError`. The memo field has already been assigned at that point.
- Calling `count()` on a null post list is an error (`NullMemberCall`).
- The memo guard is `!== null`. A resolver that stores or returns null has memoised nothing, and the next call computes afresh.

Points of the code worth noting:

- The first component of the cache key is `static::class`, the fully qualified class name (`ChrisPenny\ElementalBlog\Model\BlogOverviewBlock`).
- The page's own sidebar is used when `SideBar()->exists()`, that is when the widget area record is stored, whether or not it holds widgets.
- A `LastEdited` value is a string that itself contains `-`. The key identifies its inputs when the `LastEdited` values have equal width, as every `YYYY-MM-DD HH:MM:SS` value has; `CacheKeyCollision` shows two inputs with one key when they do not.
- `getBlogPosts` fails with a `TypeError` when a hook returns an object of another class, because of its declared `?DataList` return type.

## Model

| member | source | states |
|---|---|---|
| `ElementalBlog.BlogOverviewBlock.constructor` | src/Model/BlogOverviewBlock.php:126-153 | a block starts with all four memo fields null |
| `ElementalBlog.BlogOverviewBlock.GetType` | src/Model/BlogOverviewBlock.php:159-162 | the type is the class's default title: 'Blog Overview', 'Blog Pagination' or 'Blog Widgets' |
| `ElementalBlog.BlogOverviewBlock.PopulateDefaults` | src/Model/BlogOverviewBlock.php:221-231 | title and toggles become what the class's configuration gives; the title afterwards equals the block's type |
| `BlockConfig.TitleKeptUnlessDefaultTitleSet` | src/Model/BlogOverviewBlock.php:225-227 | with `set_default_title` the title becomes the default title, without it the title is left as it was; a title differing from the default is kept exactly when `set_default_title` is false |
| `BlockConfig.PopulateDefaultsIdempotent` | src/Model/BlogOverviewBlock.php:221-231 | populating defaults twice gives what populating once gives |
| `BlockConfig.OverviewDefaults` | src/Model/BlogOverviewBlock.php:67-110 | with the overview configuration: Title 'Blog Overview', ShowPagination 1, ShowWidgets 0 |
| `ElementalBlog.VariantDefaults` | src/Model/BlogOverviewBlock.php:221-231 | for each class the populated defaults, with the title always the class's default title |
| `PaginationBlock.PaginationDefaults` | src/Model/BlogPaginationBlock.php:49-84 | populating defaults gives 'Blog Pagination', ShowPagination 1, ShowWidgets 0, whatever the title was |
| `PaginationBlock.PaginationFields` | src/Model/BlogPaginationBlock.php:59-98 | neither toggle field is shown; the info message is shown with its pagination text |
| `WidgetsBlock.WidgetsDefaults` | src/Model/BlogWidgetsBlock.php:49-84 | populating defaults gives 'Blog Widgets', ShowPagination 0, ShowWidgets 1, whatever the title was |
| `WidgetsBlock.WidgetsFields` | src/Model/BlogWidgetsBlock.php:59-98 | neither toggle field is shown; the info message is shown with its widgets text |
| `ElementalBlog.ClassNamesDistinct` | src/Model/BlogPaginationBlock.php:17 | the three class names differ and contain no '-' |
| `ElementalBlog.CacheKeysSeparateClasses` | src/Model/BlogWidgetsBlock.php:17 | blocks of different classes never share a cache key, whatever their IDs, LastEdited values and posts |
| `ElementalBlog.BlogOverviewBlock.GetBlogPosts` | src/Model/BlogOverviewBlock.php:237-261 | result and new memo are those of `BlogPostsCall`; a non-null memo is returned and kept |
| `Resolvers.BlogPostsSource` | src/Model/BlogOverviewBlock.php:250-258 | the Blog page's own posts, or all posts when the page is not a Blog, pass `updateBlogPosts` and are stored |
| `Resolvers.BlogPostsMemoised` | src/Model/BlogOverviewBlock.php:239-241 | a stored non-null list is returned by every later call in any context; a null result stores nothing and the next call recomputes |
| `ElementalBlog.BlogOverviewBlock.GetPaginatedList` | src/Model/BlogOverviewBlock.php:267-296 | result and new memos are those of `PaginatedListCall`; a non-null memo is returned and nothing changes |
| `Resolvers.PaginatedListPriority` | src/Model/BlogOverviewBlock.php:281-293 | BlogController's list, else the controller's custom list, else a new list over getBlogPosts(), each passed through `updatePaginatedList`, stored, and returned through the `?PaginatedList` return type; only the last touches the post memo; errors from it propagate and store nothing |
| `Resolvers.CustomPaginatedListVerbatim` | src/Model/BlogOverviewBlock.php:284-285 | without extensions: the custom list is stored unvalidated (null or another class included); another class is then refused at return |
| `Resolvers.PaginatedListMemoised` | src/Model/BlogOverviewBlock.php:269-271 | a stored non-null list is returned by every later call whatever the controller; a null result is never stored |
| `ElementalBlog.BlogOverviewBlock.SideBarView` | src/Model/BlogOverviewBlock.php:302-354 | result and new memo are those of `SideBarViewCall`; a non-null memo is returned and kept |
| `Resolvers.SideBarWithoutWidgetExtension` | src/Model/BlogOverviewBlock.php:311-326 | no method: null, nothing stored; non-WidgetArea: the exception, nothing stored; WidgetArea: stored and returned without the hook |
| `Resolvers.ParentSideBarExactly` | src/Model/BlogOverviewBlock.php:329-340 | the parent's SideBarView() is used iff widget extension, InheritSideBar, a parent, and a parent SideBarView method; unchecked, hooked, independent of the page's own sidebar |
| `Resolvers.OwnSideBarExactly` | src/Model/BlogOverviewBlock.php:343-353 | otherwise the own SideBar is used (hooked, stored) iff it exists; else null and nothing stored |
| `Resolvers.SideBarErrors` | src/Model/BlogOverviewBlock.php:316-318 | the only exception is the type mismatch of the page's own SideBarView method; any other error is the return type's |
| `Resolvers.SideBarViewMemoised` | src/Model/BlogOverviewBlock.php:304-306 | a stored non-null area is returned by every later call whatever the page; a null result is never stored |
| `ElementalBlog.BlogOverviewBlock.GetCacheKey` | src/Model/BlogOverviewBlock.php:362-384 | result and new memos are those of `CacheKeyCall`; a non-null memo is returned and nothing changes (what `CacheKeyCall` computes: see `CacheKeyFromPosts`) |
| `Resolvers.CacheKeyFromPosts` | src/Model/BlogOverviewBlock.php:368-381 | the key is built from the one list getBlogPosts() yields and passes `updateCacheKey`; a failing or null post list fails the call and stores no key |
| `Resolvers.CacheKeyOfBlogPage` | src/Model/BlogOverviewBlock.php:368-377 | without extensions, on a Blog page, the key is that of the Blog's posts |
| `Resolvers.CacheKeyMemoised` | src/Model/BlogOverviewBlock.php:364-366 | a stored key is returned by every later call whatever the context; a null result is never stored |
| `ElementalBlog.CacheKeyStableAcrossCalls` | src/Model/BlogOverviewBlock.php:364-383 | for a block without extensions: the first call returns the key over the Blog's posts, or over all posts off a Blog page; the second call returns the same key even when page, posts and controller changed in between |
| `CacheKeys.CacheKeyLayout` | src/Model/BlogOverviewBlock.php:368-377 | the key is class name, ID, LastEdited, post count and latest post edit, in that order, one '-' between each two |
| `CacheKeys.CacheKeyInjective` | src/Model/BlogOverviewBlock.php:368-377 | equal keys (dash-free class names, equal-width LastEdited) mean equal class, ID, LastEdited, post count and latest edit |
| `CacheKeys.CacheKeyCollision` | src/Model/BlogOverviewBlock.php:368-377 | with LastEdited values of different widths, different post counts can give the same key |
| `ElementalBlog.CacheKeyExample` | src/Model/BlogOverviewBlock.php:368-377 | ID 5, LastEdited 2024-01-01, three posts latest 2024-01-02: the class name followed by `-5-2024-01-01-3-2024-01-02` |
| `CacheKeys.Decimal` | src/Model/BlogOverviewBlock.php:372 | an integer renders as a non-empty string of decimal digits |
| `CacheKeys.DecimalRoundTrip` | src/Model/BlogOverviewBlock.php:372 | reading the digits back gives the integer, so distinct IDs and counts render differently |
| `CacheKeys.LatestEdit` | src/Model/BlogOverviewBlock.php:375 | the latest edit is absent exactly when there are no posts |
| `CacheKeys.LatestEditIsMaximum` | src/Model/BlogOverviewBlock.php:375 | the latest edit is some post's LastEdited and no post's LastEdited exceeds it |
| `CacheKeys.LatestEditUnique` | src/Model/BlogOverviewBlock.php:375 | any value that is some post's LastEdited and exceeded by none is the latest edit |

## Left out

- `getCMSFields` builds the admin form. It is user interface, so the field-visibility and info-message settings are modelled only as configuration values.
- `parent::populateDefaults()` belongs to the framework's base element. It is not part of this model; the title it leaves is taken as the title before the call.
- Configuration is the values each class declares. Overrides through the framework's configuration system are not modelled.
- The ORM:
  - A post list is the sequence of posts it yields.
  - `BlogPost::get()` is the `allPosts` sequence of the context.
  - `count()` is the sequence's length.
  - `max('LastEdited')` is the lexicographic maximum of the `LastEdited` strings. For the database's `YYYY-MM-DD HH:MM:SS` rendering this is the chronological order. Timestamp formatting itself is not modelled.
- `Controller::curr()` and `getPage()` are the context a method receives. A null page is not modelled, because `SideBarView` does not guard it. A null current controller is not modelled either, because `getPaginatedList` calls `hasMethod` on it unguarded.
- The paging library: a new `PaginatedList` is an opaque wrapper around whatever `getBlogPosts()` returned, null included. How that library treats a null list is not part of this model.
- Extension hooks: each is a pure function of the candidate value. Hooks with other side effects, and hooks that depend on state other than the candidate, are not modelled.
- PHP's coercion of a scalar returned by a hook into the declared `?string` return type is not modelled. A hook value of another type is treated as a `TypeError`.
- Exceptions the collaborators themselves may raise (database or validation errors) are not modelled.
- Class metadata (`$db`, `$table_name`, `$icon`, names, descriptions) carries no behaviour and is not modelled.
