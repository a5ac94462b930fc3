/**
 * The document-model records of the terminal encyclopedia client
 * (src/ui/models.rs): search-result previews, articles and the
 * table-of-contents tree, together with the two conversions into a preview
 * and the structural copies that `#[derive(Clone)]` gives the previews and
 * the table-of-contents records.
 */
module Models {
  /** Rust's `i32`: a signed 32-bit integer. */
  newtype I32 = x: int | -0x8000_0000 <= x < 0x8000_0000

  /** The fields of a search result that the conversion into a preview drops. */
  type SearchResultRest(==)

  /**
   * A search result as delivered by the search module: the three fields the
   * conversion reads, and the rest of the record.
   */
  datatype SearchResult = SearchResult(pageId: I32, title: string, snippet: string, rest: SearchResultRest)

  /** The preview of an article shown in the result list, or used to open one. */
  datatype ArticleResultPreview = ArticleResultPreview(pageId: I32, snippet: string, title: string)

  /** An article: its page id, its title and its decoded body. */
  datatype Article = Article(pageId: I32, title: string, content: string)

  /** The root of an article's table of contents. */
  datatype Table = Table(title: string, items: seq<Item>)

  /**
   * One entry of a table of contents. Its `subItems` field is Rust's
   * `Option<Vec<Item>>`, written as a datatype of its own so that Dafny can
   * see that the children are smaller than their parent: `NoSubItems` is
   * `None` (no children) and `SomeSubItems(s)` is `Some(s)`. A leaf and an
   * entry with an empty list of children are different values.
   */
  datatype Item = Item(number: I32, text: string, subItems: SubItems)

  datatype SubItems = NoSubItems | SomeSubItems(items: seq<Item>)

  /** `From<SearchResult> for ArticleResultPreview`: moves the three fields across. */
  function FromSearchResult(result: SearchResult): (p: ArticleResultPreview)
    ensures p.pageId == result.pageId
    ensures p.snippet == result.snippet
    ensures p.title == result.title
  {
    ArticleResultPreview(pageId := result.pageId, snippet := result.snippet, title := result.title)
  }

  /** `From<i32> for ArticleResultPreview`: only the page id is known. */
  function FromPageId(pageId: I32): (p: ArticleResultPreview)
    ensures p.pageId == pageId
    ensures p.snippet == [] && p.title == []
  {
    ArticleResultPreview(pageId := pageId, snippet := "", title := "")
  }

  /**
   * Two search results give the same preview exactly when they agree on page
   * id, title and snippet: the conversion keeps those and drops the rest.
   */
  lemma FromSearchResultKeepsExactlyThreeFields(a: SearchResult, b: SearchResult)
    ensures FromSearchResult(a) == FromSearchResult(b) <==>
      a.pageId == b.pageId && a.title == b.title && a.snippet == b.snippet
  {
  }

  /** Different page ids give different previews. */
  lemma FromPageIdInjective(a: I32, b: I32)
    ensures FromPageId(a) == FromPageId(b) <==> a == b
  {
  }

  /**
   * The previews built from a bare page id are exactly those whose title and
   * snippet are both empty.
   */
  lemma FromPageIdImage(p: ArticleResultPreview)
    ensures (exists id: I32 :: FromPageId(id) == p) <==> p.title == [] && p.snippet == []
  {
    if p.title == [] && p.snippet == [] {
      assert FromPageId(p.pageId) == p;
    }
  }

  /**
   * Converting a search result and converting only its page id give the same
   * page id, and the two previews differ at most in title and snippet: they
   * are equal exactly when the result's title and snippet are empty.
   */
  lemma PageIdAndSearchResultAgree(result: SearchResult)
    ensures FromPageId(result.pageId).pageId == FromSearchResult(result).pageId
    ensures FromPageId(result.pageId) == FromSearchResult(result).(title := "", snippet := "")
    ensures FromPageId(result.pageId) == FromSearchResult(result) <==> result.title == [] && result.snippet == []
  {
  }

  /** A leaf entry and an entry with an empty list of children are different values. */
  lemma LeafDiffersFromEmptyChildren(number: I32, text: string)
    ensures Item(number, text, NoSubItems) != Item(number, text, SomeSubItems([]))
  {
  }

  /** `#[derive(Clone)]` on `ArticleResultPreview`: a field-by-field copy. */
  function ClonePreview(p: ArticleResultPreview): (r: ArticleResultPreview)
    ensures r.pageId == p.pageId && r.snippet == p.snippet && r.title == p.title
  {
    ArticleResultPreview(p.pageId, p.snippet, p.title)
  }

  /** `#[derive(Clone)]` on `Item`: copies the fields and clones the children, if any. */
  function CloneItem(item: Item): (r: Item)
    decreases item
    ensures r.number == item.number && r.text == item.text
    ensures r.subItems.NoSubItems? <==> item.subItems.NoSubItems?
    ensures r.subItems.SomeSubItems? ==> |r.subItems.items| == |item.subItems.items|
  {
    Item(item.number, item.text,
         match item.subItems
         case NoSubItems => NoSubItems
         case SomeSubItems(children) => SomeSubItems(CloneItems(children)))
  }

  /** `Vec<Item>::clone`: clones every element, in order. */
  function CloneItems(items: seq<Item>): (r: seq<Item>)
    decreases items
    ensures |r| == |items|
    ensures forall k :: 0 <= k < |items| ==> r[k] == CloneItem(items[k])
  {
    if items == [] then [] else [CloneItem(items[0])] + CloneItems(items[1..])
  }

  /** `#[derive(Clone)]` on `Table`: copies the title and clones the items. */
  function CloneTable(table: Table): (r: Table)
    ensures r.title == table.title && |r.items| == |table.items|
    ensures forall k :: 0 <= k < |table.items| ==> r.items[k] == CloneItem(table.items[k])
  {
    Table(table.title, CloneItems(table.items))
  }

  /** Cloning a preview gives an equal value. */
  lemma ClonePreviewIsIdentity(p: ArticleResultPreview)
    ensures ClonePreview(p) == p
  {
  }

  /** Cloning a table-of-contents entry gives an equal value, at every depth. */
  lemma {:induction false} CloneItemIsIdentity(item: Item)
    decreases item
    ensures CloneItem(item) == item
  {
    match item.subItems
    case NoSubItems =>
    case SomeSubItems(children) => CloneItemsIsIdentity(children);
  }

  /** Cloning a list of entries gives an equal list. */
  lemma {:induction false} CloneItemsIsIdentity(items: seq<Item>)
    decreases items
    ensures CloneItems(items) == items
  {
    forall k | 0 <= k < |items|
      ensures CloneItems(items)[k] == items[k]
    {
      CloneItemIsIdentity(items[k]);
    }
  }

  /** Cloning a table gives an equal value. */
  lemma CloneTableIsIdentity(table: Table)
    ensures CloneTable(table) == table
  {
    CloneItemsIsIdentity(table.items);
  }
}
