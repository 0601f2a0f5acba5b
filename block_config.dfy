/**
 * The per-class configuration of the blog blocks and what populating
 * defaults does with it. The values here are those BlogOverviewBlock
 * declares; the two subclasses declare their own in their own modules.
 */
module BlockConfig {

  /** The configuration a block class declares. */
  datatype Config = Config(
    defaultTitle: string,
    setDefaultTitle: bool,
    showPaginationField: int,
    paginationFieldDefault: int,
    showWidgetsField: int,
    widgetsFieldDefault: int,
    showInfoMessageField: int,
    infoMessageFieldDefault: string)

  /** The fields populating defaults writes. */
  datatype Defaults = Defaults(title: string, showPagination: int, showWidgets: int)

  /** BlogOverviewBlock's own configuration. */
  const OverviewConfig: Config := Config(
    defaultTitle := "Blog Overview",
    setDefaultTitle := true,
    showPaginationField := 1,
    paginationFieldDefault := 1,
    showWidgetsField := 0,
    widgetsFieldDefault := 0,
    showInfoMessageField := 1,
    infoMessageFieldDefault := "This block will automatically display Blog Posts and pagination")

  /**
   * The fields after populating defaults under `cfg`, starting from `current`:
   * the title is replaced only when the class asks for a default title, the
   * two toggles always take their configured defaults.
   */
  function PopulatedDefaults(cfg: Config, current: Defaults): Defaults
  {
    Defaults(
      if cfg.setDefaultTitle then cfg.defaultTitle else current.title,
      cfg.paginationFieldDefault,
      cfg.widgetsFieldDefault)
  }

  /**
   * The title becomes the default title when the class asks for one, and is
   * left untouched otherwise; when it differed from the default title, it is
   * kept exactly when the class does not ask for a default title.
   */
  lemma TitleKeptUnlessDefaultTitleSet(cfg: Config, current: Defaults)
    ensures cfg.setDefaultTitle ==> PopulatedDefaults(cfg, current).title == cfg.defaultTitle
    ensures !cfg.setDefaultTitle ==> PopulatedDefaults(cfg, current).title == current.title
    ensures cfg.defaultTitle != current.title ==>
      (PopulatedDefaults(cfg, current).title == current.title <==> !cfg.setDefaultTitle)
  {
  }

  /** Populating defaults twice is the same as populating them once. */
  lemma PopulateDefaultsIdempotent(cfg: Config, current: Defaults)
    ensures PopulatedDefaults(cfg, PopulatedDefaults(cfg, current)) == PopulatedDefaults(cfg, current)
  {
  }

  /** With BlogOverviewBlock's configuration: 'Blog Overview', pagination on, widgets off. */
  lemma OverviewDefaults(current: Defaults)
    ensures PopulatedDefaults(OverviewConfig, current) == Defaults("Blog Overview", 1, 0)
  {
  }
}
