# wiki-tui: document model and startup rules

This project models two small parts of wiki-tui, a terminal client for an
online encyclopedia.

- **Document-model records** (`src/ui/models.rs`), in module `Models`:
  - the records: search-result previews (`ArticleResultPreview`), articles
    (`Article`) and the table-of-contents tree (`Table`, `Item`);
  - the two conversions into a preview: from a search result, and from a
    bare page id;
  - the structural copies that `#[derive(Clone)]` gives the previews and the
    table-of-contents records (`Article` does not derive `Clone`).

  Page ids and entry numbers are Rust `i32`s. They are modelled by the
  newtype `I32`, which ranges over -2^31 .. 2^31-1.
- **Startup rules** (`src/main.rs`), in module `App`:
  - the substitution map for the crash report;
  - the choice of the first action from the command-line arguments;
  - the search bar's colour style;
  - the colour palette built from the configured theme.

  The source reads the configuration and the arguments from a global. Here
  they are explicit parameters (`Theme`, `Args`). The boxed callback that
  `handle_arguments` returns is modelled as a `StartupAction` value: `Search`,
  `Open` or `Nothing`.

Paths below are relative to the repository root.

## Model

| member | source | states |
|---|---|---|
| `Models.FromSearchResult` | src/ui/models.rs:16-24 | the preview keeps the search result's page id, snippet and title unchanged |
| `Models.FromPageId` | src/ui/models.rs:26-34 | the preview has the given page id and an empty snippet and title |
| `Models.FromSearchResultKeepsExactlyThreeFields` | src/ui/models.rs:16-24 | two search results give the same preview exactly when they agree on page id, title and snippet; the result's other fields are dropped |
| `Models.FromPageIdInjective` | src/ui/models.rs:26-34 | two page ids give the same preview exactly when they are equal |
| `Models.FromPageIdImage` | src/ui/models.rs:26-34 | a preview comes from some bare page id if and only if its title and snippet are both empty |
| `Models.PageIdAndSearchResultAgree` | src/ui/models.rs:16-34 | converting a search result and converting only its page id give the same page id; the two previews differ only in title and snippet, and they are equal exactly when both of those are empty in the result |
| `Models.LeafDiffersFromEmptyChildren` | src/ui/models.rs:44-48 | an entry with no children (`None`) differs from an entry with an empty child list (`Some([])`) |
| `Models.CloneItem` | src/ui/models.rs:43-48 | cloning an entry keeps its number and text; it keeps "no children" and "some children" apart; it keeps the number of children |
| `Models.CloneItems` | src/ui/models.rs:47 | cloning a child list keeps its length, and element k of the copy is the clone of element k |
| `Models.ClonePreview` | src/ui/models.rs:3-8 | cloning a preview copies its page id, snippet and title |
| `Models.CloneTable` | src/ui/models.rs:37-41 | cloning a table keeps its title and number of items, and item k of the copy is the clone of item k |
| `Models.ClonePreviewIsIdentity` | src/ui/models.rs:3-8 | cloning a preview gives an equal value |
| `Models.CloneItemIsIdentity` | src/ui/models.rs:43-48 | cloning an entry gives an equal value at every depth of the tree |
| `Models.CloneItemsIsIdentity` | src/ui/models.rs:47 | cloning a list of entries gives an equal list |
| `Models.CloneTableIsIdentity` | src/ui/models.rs:37-41 | cloning a table gives an equal value |
| `App.CrashReportData` | src/main.rs:31-33 | the crash-report map has exactly the two keys `%NAME%` and `%GITHUB%`, bound to the package name and the repository |
| `App.HandleArguments` | src/main.rs:133-150 | the action is a search with exactly the query if and only if a query is given; it opens the page-id conversion of the article id if and only if there is no query but an article id is given; it is nothing if and only if neither is given |
| `App.SearchQueryWins` | src/main.rs:134-141 | with a search query, the action is that search whatever article id is also given |
| `App.OpenedPreviewCarriesId` | src/main.rs:142-146 | an article id alone opens a preview with that id and an empty title and snippet; different ids open different previews |
| `App.ExactlyOneAction` | src/main.rs:133-150 | for every set of arguments exactly one of three cases holds: a query is given and the action is that search; no query but an id is given and the action opens `FromPageId` of the id; neither is given and the action is nothing |
| `App.SearchBarStyle` | src/main.rs:81-87 | the style is the pair (background, text) of the search-bar theme if and only if such a theme is configured and its background equals its secondary colour; otherwise it is the default secondary style |
| `App.SearchBarStyleIgnoresMainColors` | src/main.rs:82-86 | the search-bar style depends on nothing in the theme except its search-bar part |
| `App.GetColorPalette` | src/main.rs:152-163 | the palette sets `View`, `Primary`, `TitlePrimary`, `Highlight`, `HighlightInactive` and `HighlightText` to the theme's background, text, title, highlight, highlight_inactive and highlight_text colours; every other role keeps its default colour, and no other role is added |

Notes on the modelling:

- `Item.sub_items` is `Option<Vec<Item>>` in the source. Here it is the
  datatype `SubItems = NoSubItems | SomeSubItems(items)`, which has the same
  two cases. A datatype of its own lets Dafny prove that recursion over
  the children terminates. Through the generic `Option` it cannot.
- `ColorStyle::new` takes the front colour first and the back colour second.
  The source passes the search-bar theme's `background` first and its `text`
  second. `ColorPair(front, back)` keeps that order as written.
- A palette is a map from role names to colours, and `set_color` is a map
  update. The toolkit's default palette is passed in as a parameter.
- Colours are an opaque type with equality.

## Left out

- The view tree, the event loop, the global `q` callback, the layers and
  dialogs, and sending the startup callback through `cb_sink` (src/main.rs:63-123).
  These are user-interface toolkit plumbing.
- `remove_view_from_article_layout`. Its behaviour depends on toolkit
  functions that are not part of this model.
- The panic hook and the writing of the crash-report file, logger
  initialisation, and printing the logo. These are file and console I/O.
  Only the substitution map given to the hook is modelled.
- The `Mutex` and `catch_unwind` around the event loop. These are
  concurrency and panic handling.
- `WikiApi::new`, `on_search` and `on_article_submit` are not part of this
  model: they need the network and the user interface. They appear only
  as the `Search` and `Open` actions.
- The global configuration `config::CONFIG`. Its theme and its arguments
  are parameters instead.
- The `change_theme!` macro is not part of this model.
- The toolkit's default palette and the colour type are not modelled. The
  defaults are a parameter, and colours are opaque.
- `SearchResult`'s other fields (the search module is not part of this
  model). Besides `page_id`, `title` and `snippet`, the record holds an
  opaque remainder that the conversion drops.
- `ViewTheme`'s other fields. Only `background`, `secondary` and `text`,
  which the style choice reads, are modelled.
- The log messages written by `handle_arguments`, and the panic when a
  startup search fails.
