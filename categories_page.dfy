/** The categories page: search by name, the fallback to the full list,
    and the submit of the category form. */
module CategoriesPage {
  import opened Values
  import opened Text
  import opened Domain
  import opened ListViews

  predicate CategoryMatches(term: string, c: Category)
  {
    FieldMatches(c.name, term)
  }

  /** The search result for a non-blank term, in list order. */
  function MatchingCategories(all: seq<Category>, term: string): (r: seq<Category>)
    ensures forall c :: c in r <==> c in all && c.name.Some? && Includes(Lower(c.name.value), Lower(term))
  {
    Filter(all, c => CategoryMatches(term, c))
  }

  /** The search ignores the case of the term. */
  lemma SearchIgnoresCase(all: seq<Category>, term: string)
    ensures MatchingCategories(all, Lower(term)) == MatchingCategories(all, term)
  {
    forall c: Category
      ensures CategoryMatches(Lower(term), c) == CategoryMatches(term, c)
    {
      FieldMatchesIgnoresCase(c.name, term);
    }
    FilterSameTest(all, c => CategoryMatches(Lower(term), c), c => CategoryMatches(term, c));
  }

  /** The call the form's submit makes on the categories hook. */
  datatype CategoryCall = UpdateCategory(id: nat, name: string) | CreateCategory(name: string)

  /** The page's own state over the list the categories hook provides. */
  class CategoriesView {
    const categories: seq<Category>
    var filtered: seq<Category>
    var editing: Option<Category>
    var modalOpen: bool

    constructor (categories: seq<Category>)
      ensures this.categories == categories && filtered == [] && editing.None? && !modalOpen
    {
      this.categories := categories;
      filtered := [];
      editing := None;
      modalOpen := false;
    }

    /** `displayCategories`. */
    function Displayed(): seq<Category>
      reads this
    {
      Display(filtered, categories)
    }

    /** `handleSearch`. */
    method HandleSearch(term: string)
      modifies this
      ensures IsBlank(term) ==> filtered == []
      ensures !IsBlank(term) ==> filtered == MatchingCategories(categories, term)
      ensures editing == old(editing) && modalOpen == old(modalOpen)
    {
      if IsBlank(term) {
        filtered := [];
        return;
      }
      filtered := MatchingCategories(categories, term);
    }

    /** `handleCreateCategory`: opens the form with nothing being edited. */
    method HandleCreateCategory()
      modifies this
      ensures editing.None? && modalOpen && filtered == old(filtered)
    {
      editing := None;
      modalOpen := true;
    }

    /** `handleEditCategory`: opens the form on the category. */
    method HandleEditCategory(category: Category)
      modifies this
      ensures editing == Some(category) && modalOpen && filtered == old(filtered)
    {
      editing := Some(category);
      modalOpen := true;
    }

    /** The call `handleSubmitCategory` makes: an update of the category
        being edited, or a creation. */
    function SubmitCall(name: string): (call: CategoryCall)
      reads this
      ensures call.UpdateCategory? <==> editing.Some?
      ensures call.name == name
      ensures call.UpdateCategory? ==> call.id == editing.value.id
    {
      if editing.Some? then UpdateCategory(editing.value.id, name) else CreateCategory(name)
    }

    /** `handleSubmitCategory`, with the hook's outcome of the call: the form
        closes and forgets the edited category only on success. */
    method HandleSubmitCategory(name: string, success: bool) returns (call: CategoryCall)
      modifies this
      ensures call == old(SubmitCall(name))
      ensures success ==> !modalOpen && editing.None?
      ensures !success ==> modalOpen == old(modalOpen) && editing == old(editing)
      ensures filtered == old(filtered)
    {
      call := SubmitCall(name);
      if success {
        modalOpen := false;
        editing := None;
      }
    }
  }
}
