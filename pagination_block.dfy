/** BlogPaginationBlock: a BlogOverviewBlock that declares only different configuration. */
module PaginationBlock {
  import opened BlockConfig

  const PaginationConfig: Config := Config(
    defaultTitle := "Blog Pagination",
    setDefaultTitle := true,
    showPaginationField := 0,
    paginationFieldDefault := 1,
    showWidgetsField := 0,
    widgetsFieldDefault := 0,
    showInfoMessageField := 1,
    infoMessageFieldDefault := "This block will automatically display pagination for Blog Posts")

  /** Neither toggle is offered to authors, and the info message is shown. */
  lemma PaginationFields()
    ensures PaginationConfig.showPaginationField == 0 && PaginationConfig.showWidgetsField == 0
    ensures PaginationConfig.showInfoMessageField == 1
    ensures PaginationConfig.infoMessageFieldDefault
         == "This block will automatically display pagination for Blog Posts"
  {
  }

  /** Populating defaults gives 'Blog Pagination', pagination on and widgets off, whatever the title was. */
  lemma PaginationDefaults(current: Defaults)
    ensures PopulatedDefaults(PaginationConfig, current) == Defaults("Blog Pagination", 1, 0)
  {
  }
}
