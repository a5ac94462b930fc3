/**
 * The startup logic of the client (src/main.rs) that is not user-interface
 * plumbing: the template map of the crash report, the choice of the first
 * action from the command-line arguments, the style of the search bar and
 * the colour palette built from the configured theme. The configuration and
 * the arguments, which the source reads from a global, are parameters here.
 */
module App {
  import opened Wrappers
  import opened Models

  /** A terminal colour; only its equality matters here. */
  type Color(==)

  /** The command-line arguments the client looks at on startup. */
  datatype Args = Args(searchQuery: Option<string>, articleId: Option<I32>)

  /**
   * What the client does once the interface is set up: run a search with the
   * query, open the article described by the preview, or do nothing.
   */
  datatype StartupAction = Search(query: string) | Open(preview: ArticleResultPreview) | Nothing

  /** The colours configured for one view (here: the search bar). */
  datatype ViewTheme = ViewTheme(background: Color, secondary: Color, text: Color)

  /** The configured colour theme. */
  datatype Theme = Theme(
    background: Color,
    text: Color,
    title: Color,
    highlight: Color,
    highlightInactive: Color,
    highlightText: Color,
    searchBar: Option<ViewTheme>)

  /**
   * A colour style: either one built from two colours (a front and a back
   * colour, in that order) or the toolkit's default secondary style.
   */
  datatype ColorStyle = ColorPair(front: Color, back: Color) | SecondaryStyle

  /** A palette maps the names of colour roles to colours. */
  type Palette = map<string, Color>

  const NameKey: string := "%NAME%"
  const GithubKey: string := "%GITHUB%"

  /** The six roles whose colours come from the configured theme. */
  const ThemedRoles: set<string> := {"View", "Primary", "TitlePrimary", "Highlight", "HighlightInactive", "HighlightText"}

  /**
   * The substitution map handed to the crash-report hook: the placeholders
   * `%NAME%` and `%GITHUB%` stand for the package name and its repository.
   */
  method CrashReportData(packageName: string, repository: string) returns (data: map<string, string>)
    ensures data.Keys == {NameKey, GithubKey} && |data| == 2
    ensures data[NameKey] == packageName
    ensures data[GithubKey] == repository
  {
    data := map[];
    data := data[NameKey := packageName];
    data := data[GithubKey := repository];
    assert NameKey != GithubKey;
  }

  /**
   * The first action: a search query wins over an article id, an article id
   * opens the article through the page-id conversion, and without either
   * nothing happens.
   */
  function HandleArguments(args: Args): (action: StartupAction)
    ensures action.Search? <==> args.searchQuery.Some?
    ensures action.Search? ==> action.query == args.searchQuery.value
    ensures action.Open? <==> args.searchQuery.None? && args.articleId.Some?
    ensures action.Open? ==> action.preview == FromPageId(args.articleId.value)
    ensures action.Nothing? <==> args.searchQuery.None? && args.articleId.None?
  {
    match args.searchQuery
    case Some(query) => Search(query)
    case None =>
      match args.articleId
      case Some(id) => Open(FromPageId(id))
      case None => Nothing
  }

  /** With a search query, the article id has no effect on the action. */
  lemma SearchQueryWins(query: string, id1: Option<I32>, id2: Option<I32>)
    ensures HandleArguments(Args(Some(query), id1)) == HandleArguments(Args(Some(query), id2)) == Search(query)
  {
  }

  /**
   * The article opened from an id carries that id and an empty title and
   * snippet, and different ids open different articles.
   */
  lemma OpenedPreviewCarriesId(id: I32, other: I32)
    ensures HandleArguments(Args(None, Some(id))) == Open(ArticleResultPreview(id, "", ""))
    ensures HandleArguments(Args(None, Some(id))) == HandleArguments(Args(None, Some(other))) <==> id == other
  {
    FromPageIdInjective(id, other);
  }

  /**
   * The three argument cases (a query; no query but an id; neither) are
   * exclusive and exhaustive, and each picks its own action.
   */
  lemma ExactlyOneAction(args: Args)
    ensures var q, id, a := args.searchQuery, args.articleId, HandleArguments(args);
      (q.Some? && a == Search(q.value)) ||
      (q.None? && id.Some? && a == Open(FromPageId(id.value))) ||
      (q.None? && id.None? && a == Nothing)
    ensures var q, id := args.searchQuery, args.articleId;
      !(q.Some? && q.None?) && !(id.Some? && id.None?)
  {
  }

  /**
   * The search bar's style: the pair (background, text) when a search-bar
   * theme is configured and its background equals its secondary colour, the
   * default secondary style otherwise.
   */
  function SearchBarStyle(theme: Theme): (style: ColorStyle)
    ensures style.ColorPair? <==> theme.searchBar.Some? && theme.searchBar.value.background == theme.searchBar.value.secondary
    ensures style.ColorPair? ==> style.front == theme.searchBar.value.background && style.back == theme.searchBar.value.text
  {
    match theme.searchBar
    case Some(searchTheme) =>
      if searchTheme.background == searchTheme.secondary then
        ColorPair(searchTheme.background, searchTheme.text)
      else
        SecondaryStyle
    case None => SecondaryStyle
  }

  /** The search-bar style depends only on the search-bar part of the theme. */
  lemma SearchBarStyleIgnoresMainColors(theme: Theme, other: Theme)
    requires theme.searchBar == other.searchBar
    ensures SearchBarStyle(theme) == SearchBarStyle(other)
  {
  }

  /**
   * The palette: the default palette with the six themed roles set, one after
   * the other, to the theme's colours; every other role keeps its default.
   */
  method GetColorPalette(defaults: Palette, theme: Theme) returns (palette: Palette)
    ensures palette.Keys == defaults.Keys + ThemedRoles
    ensures palette["View"] == theme.background
    ensures palette["Primary"] == theme.text
    ensures palette["TitlePrimary"] == theme.title
    ensures palette["Highlight"] == theme.highlight
    ensures palette["HighlightInactive"] == theme.highlightInactive
    ensures palette["HighlightText"] == theme.highlightText
    ensures forall role :: role in defaults && role !in ThemedRoles ==> palette[role] == defaults[role]
  {
    palette := defaults;
    palette := palette["View" := theme.background];
    palette := palette["Primary" := theme.text];
    palette := palette["TitlePrimary" := theme.title];
    palette := palette["Highlight" := theme.highlight];
    palette := palette["HighlightInactive" := theme.highlightInactive];
    palette := palette["HighlightText" := theme.highlightText];
  }
}
