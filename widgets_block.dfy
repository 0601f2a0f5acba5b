/** BlogWidgetsBlock: a BlogOverviewBlock that declares only different configuration. */
module WidgetsBlock {
  import opened BlockConfig

  const WidgetsConfig: Config := Config(
    defaultTitle := "Blog Widgets",
    setDefaultTitle := true,
    showPaginationField := 0,
    paginationFieldDefault := 0,
    showWidgetsField := 0,
    widgetsFieldDefault := 1,
    showInfoMessageField := 1,
    infoMessageFieldDefault := "This block will automatically display Blog Widgets")

  /** Neither toggle is offered to authors, and the info message is shown. */
  lemma WidgetsFields()
    ensures WidgetsConfig.showPaginationField == 0 && WidgetsConfig.showWidgetsField == 0
    ensures WidgetsConfig.showInfoMessageField == 1
    ensures WidgetsConfig.infoMessageFieldDefault
         == "This block will automatically display Blog Widgets"
  {
  }

  /** Populating defaults gives 'Blog Widgets', pagination off and widgets on, whatever the title was. */
  lemma WidgetsDefaults(current: Defaults)
    ensures PopulatedDefaults(WidgetsConfig, current) == Defaults("Blog Widgets", 0, 1)
  {
  }
}
