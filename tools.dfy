/**
 * The tools directory (src/pages/Tools.tsx): the intern view's search and
 * category filter and bookmark list, and the admin view's add-tool form.
 */
module Tools {
  import opened Seqs
  import opened Text

  /** A tool record (its floating-point rating and icon are not modelled). */
  datatype Tool = Tool(
    id: int,
    name: string,
    description: string,
    category: string,
    url: string,
    featured: bool,
    tags: seq<string>)

  /** `mockTools`. */
  const MockTools: seq<Tool> := [
    Tool(1, "Visual Studio Code", "Powerful source code editor with extensive extension support",
         "Code Editor", "https://code.visualstudio.com", true, ["free", "cross-platform", "extensions"]),
    Tool(2, "Figma", "Collaborative interface design tool for UI/UX designers",
         "Design", "https://figma.com", true, ["design", "collaboration", "prototyping"]),
    Tool(3, "MongoDB Compass", "GUI for MongoDB database administration and querying",
         "Database", "https://mongodb.com/products/compass", false, ["database", "mongodb", "gui"]),
    Tool(4, "Postman", "API development and testing platform",
         "API Testing", "https://postman.com", true, ["api", "testing", "development"]),
    Tool(5, "React DevTools", "Browser extension for debugging React components",
         "Debugging", "https://react.dev/learn/react-developer-tools", false, ["react", "debugging", "extension"])
  ]

  /** The category buttons; "All" switches the category test off. */
  const Categories: seq<string> := ["All", "Code Editor", "Design", "Database", "API Testing", "Debugging"]

  /**
   * The first button is "All", and every tool's category has a button of its own,
   * so each tool can be reached by picking its category.
   */
  lemma CategoriesCoverTools()
    ensures Categories[0] == "All"
    ensures forall k :: 0 <= k < |MockTools| ==> MockTools[k].category in Categories[1..]
  {
  }

  /** Some tag contains `term` (both already lower-cased by the caller's convention). */
  predicate SomeTagIncludes(tags: seq<string>, term: string)
  {
    exists k :: 0 <= k < |tags| && Includes(ToLower(tags[k]), term)
  }

  /** The lower-cased search term occurs in the lower-cased name, description or some tag. */
  predicate MatchesSearch(t: Tool, searchTerm: string)
  {
    var q := ToLower(searchTerm);
    Includes(ToLower(t.name), q) || Includes(ToLower(t.description), q) || SomeTagIncludes(t.tags, q)
  }

  /** The selected category is "All" or the tool's own. */
  predicate MatchesCategory(t: Tool, selectedCategory: string)
  {
    selectedCategory == "All" || t.category == selectedCategory
  }

  /**
   * `filteredTools`: the tools, in their order, that match both the search term
   * and the selected category.
   */
  function FilteredTools(tools: seq<Tool>, searchTerm: string, selectedCategory: string): (r: seq<Tool>)
    ensures IsSubsequence(r, tools)
    ensures forall t :: t in r <==> t in tools && MatchesSearch(t, searchTerm) && MatchesCategory(t, selectedCategory)
  {
    Filter(tools, t => MatchesSearch(t, searchTerm) && MatchesCategory(t, selectedCategory))
  }

  /** With the initial empty search and the "All" category every tool is listed. */
  lemma InitialFilterKeepsAll(tools: seq<Tool>)
    ensures FilteredTools(tools, "", "All") == tools
  {
    forall i | 0 <= i < |tools| ensures MatchesSearch(tools[i], "") {
      IncludesEmpty(ToLower(tools[i].name));
    }
    FilterKeepsAll(tools, t => MatchesSearch(t, "") && MatchesCategory(t, "All"));
  }

  /** Searching is case-insensitive: terms that lower-case alike select the same tools. */
  lemma FilterCaseInsensitive(tools: seq<Tool>, a: string, b: string, c: string)
    requires ToLower(a) == ToLower(b)
    ensures FilteredTools(tools, a, c) == FilteredTools(tools, b, c)
  {
    FilterExtensional(tools, t => MatchesSearch(t, a) && MatchesCategory(t, c),
                             t => MatchesSearch(t, b) && MatchesCategory(t, c));
  }

  /** The featured tools shown at the top of the intern view, in order. */
  function FeaturedTools(tools: seq<Tool>): (r: seq<Tool>)
    ensures IsSubsequence(r, tools)
    ensures forall t :: t in r <==> t in tools && t.featured
  {
    Filter(tools, (t: Tool) => t.featured)
  }

  /**
   * `toggleBookmark`: an id already in the list is removed (every occurrence);
   * otherwise it is appended at the end.
   */
  function Toggled(bookmarked: seq<int>, id: int): (r: seq<int>)
    ensures id in r <==> id !in bookmarked
    ensures forall x :: x != id ==> (x in r <==> x in bookmarked)
    ensures id in bookmarked ==> IsSubsequence(r, bookmarked)
    ensures id !in bookmarked ==> r == bookmarked + [id]
    ensures forall x :: x != id ==> multiset(r)[x] == multiset(bookmarked)[x]
  {
    if id in bookmarked then Filter(bookmarked, x => x != id) else bookmarked + [id]
  }

  /** A duplicate-free bookmark list stays duplicate-free. */
  lemma ToggledNoDuplicates(bookmarked: seq<int>, id: int)
    requires NoDuplicates(bookmarked)
    ensures NoDuplicates(Toggled(bookmarked, id))
  {
    if id in bookmarked {
      FilterNoDuplicates(bookmarked, x => x != id);
    } else {
      var r := bookmarked + [id];
      forall i, j | 0 <= i < j < |r| ensures r[i] != r[j] {
        if j == |bookmarked| {
          assert r[i] == bookmarked[i];
        }
      }
    }
  }

  /** Toggling the same id twice gives back the same set of bookmarks. */
  lemma ToggleTwiceSameMembers(bookmarked: seq<int>, id: int, x: int)
    ensures x in Toggled(Toggled(bookmarked, id), id) <==> x in bookmarked
  {
  }

  /** Starting from an id not bookmarked, toggling it twice gives back the exact list. */
  lemma ToggleTwiceFromAbsent(bookmarked: seq<int>, id: int)
    requires id !in bookmarked
    ensures Toggled(Toggled(bookmarked, id), id) == bookmarked
  {
    var p := (x: int) => x != id;
    FilterConcat(bookmarked, [id], p);
    FilterKeepsAll(bookmarked, p);
    assert Filter([id], p) == [];
  }

  /** The admin form's text fields; tags are one comma-separated string. */
  datatype ToolForm = ToolForm(name: string, description: string, category: string, url: string, tags: string)

  /** The form as it starts and as `handleAddTool` leaves it. */
  const EmptyForm: ToolForm := ToolForm("", "", "", "", "")

  /**
   * `tags.split(',').map(tag => tag.trim())`: tag k is the k-th comma-separated
   * piece, trimmed, so there is one more tag than there are commas; no tag holds
   * a comma or starts or ends with white space.
   */
  function ParseTags(tags: string): (r: seq<string>)
    ensures |r| == |Split(tags, ',')| == Occurrences(tags, ',') + 1
    ensures forall k :: 0 <= k < |r| ==> r[k] == Trim(Split(tags, ',')[k])
    ensures forall k :: 0 <= k < |r| ==> ',' !in r[k]
    ensures forall k :: 0 <= k < |r| && r[k] != [] ==> !IsWhitespace(r[k][0]) && !IsWhitespace(r[k][|r[k]| - 1])
  {
    TrimAll(Split(tags, ','))
  }

  /** The tool `handleAddTool` builds from the form, with `id` the fresh id it draws. */
  function NewTool(form: ToolForm, id: int): (t: Tool)
    ensures t.id == id && t.name == form.name && t.description == form.description
    ensures t.category == form.category && t.url == form.url
    ensures !t.featured
    ensures |t.tags| == Occurrences(form.tags, ',') + 1
    ensures t.tags == ParseTags(form.tags)
  {
    Tool(id, form.name, form.description, form.category, form.url, false, ParseTags(form.tags))
  }

  /** The intern view's state: search term, selected category and bookmarked ids. */
  class InternToolsView {
    var searchTerm: string
    var selectedCategory: string
    var bookmarked: seq<int>

    /** The bookmark list never holds an id twice. */
    ghost predicate Valid()
      reads this
    {
      NoDuplicates(bookmarked)
    }

    /** Empty search, category "All", tools 1 and 2 bookmarked. */
    constructor ()
      ensures Valid()
      ensures searchTerm == "" && selectedCategory == "All" && bookmarked == [1, 2]
    {
      searchTerm := "";
      selectedCategory := "All";
      bookmarked := [1, 2];
    }

    /** The tools listed under "All Tools". */
    function Visible(): (r: seq<Tool>)
      reads this
      ensures IsSubsequence(r, MockTools)
    {
      FilteredTools(MockTools, searchTerm, selectedCategory)
    }

    /** The bookmark icon of a tool is filled. */
    function IsBookmarked(id: int): (b: bool)
      reads this
      ensures b <==> exists k :: 0 <= k < |bookmarked| && bookmarked[k] == id
    {
      id in bookmarked
    }

    /** Typing in the search box. */
    method SetSearchTerm(term: string)
      modifies this
      ensures searchTerm == term
      ensures selectedCategory == old(selectedCategory) && bookmarked == old(bookmarked)
    {
      searchTerm := term;
    }

    /** Pressing a category button. */
    method SelectCategory(category: string)
      modifies this
      ensures selectedCategory == category
      ensures searchTerm == old(searchTerm) && bookmarked == old(bookmarked)
    {
      selectedCategory := category;
    }

    /** `toggleBookmark(toolId)`: flips the membership of `id` only. */
    method ToggleBookmark(id: int)
      requires Valid()
      modifies this
      ensures Valid()
      ensures bookmarked == Toggled(old(bookmarked), id)
      ensures IsBookmarked(id) <==> !old(IsBookmarked(id))
      ensures forall x :: x != id ==> (x in bookmarked <==> x in old(bookmarked))
      ensures searchTerm == old(searchTerm) && selectedCategory == old(selectedCategory)
    {
      ToggledNoDuplicates(bookmarked, id);
      bookmarked := Toggled(bookmarked, id);
    }
  }

  /** The admin view's state: the tool list and the add-tool form. */
  class AdminToolsView {
    var tools: seq<Tool>
    var newTool: ToolForm

    /** The list starts as the mock tools and the form empty. */
    constructor ()
      ensures tools == MockTools && newTool == EmptyForm
    {
      tools := MockTools;
      newTool := EmptyForm;
    }

    /** Editing the form's fields. */
    method EditForm(form: ToolForm)
      modifies this
      ensures newTool == form && tools == old(tools)
    {
      newTool := form;
    }

    /**
     * `handleAddTool`: appends the tool built from the form, with the fresh id
     * `id` standing for `Date.now()`, and resets the form.
     */
    method AddTool(id: int)
      modifies this
      ensures tools == old(tools) + [NewTool(old(newTool), id)]
      ensures |tools| == |old(tools)| + 1 && tools[..|old(tools)|] == old(tools)
      ensures newTool == EmptyForm
    {
      var tool := NewTool(newTool, id);
      tools := tools + [tool];
      newTool := EmptyForm;
    }
  }
}
