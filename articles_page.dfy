/** The articles page: search, the fallback to the full list, the stock
    badge, the quantity dialog and the submit of the article form. */
module ArticlesPage {
  import opened Values
  import opened Text
  import opened Domain
  import opened ApiClient
  import opened ListViews
  import opened UseArticles

  function CategoryName(a: Article): Option<string>
  {
    if a.category.Some? then a.category.value.name else None
  }

  /** An article matches a term when its name, its description or its
      category's name contains the term, ignoring case. */
  predicate ArticleMatches(term: string, a: Article)
  {
    FieldMatches(a.articleName, term) || FieldMatches(a.description, term) || FieldMatches(CategoryName(a), term)
  }

  /** The search result for a non-blank term, in list order. */
  function MatchingArticles(all: seq<Article>, term: string): (r: seq<Article>)
    ensures forall a :: a in r <==> a in all && ArticleMatches(term, a)
  {
    Filter(all, a => ArticleMatches(term, a))
  }

  /** The search ignores the case of the term. */
  lemma SearchIgnoresCase(all: seq<Article>, term: string)
    ensures MatchingArticles(all, Lower(term)) == MatchingArticles(all, term)
  {
    forall a: Article
      ensures ArticleMatches(Lower(term), a) == ArticleMatches(term, a)
    {
      FieldMatchesIgnoresCase(a.articleName, term);
      FieldMatchesIgnoresCase(a.description, term);
      FieldMatchesIgnoresCase(CategoryName(a), term);
    }
    FilterSameTest(all, a => ArticleMatches(Lower(term), a), a => ArticleMatches(term, a));
  }

  /** The colour of the stock badge. */
  datatype Badge = Red | Yellow | Green

  function StockBadge(quantity: int): Badge
  {
    if quantity == 0 then Red else if quantity < 10 then Yellow else Green
  }

  /** The thresholds: red exactly at zero stock, green from ten on, yellow
      everywhere else, negative stock included. */
  lemma BadgeThresholds(q: int)
    ensures StockBadge(q) == Red <==> q == 0
    ensures StockBadge(q) == Green <==> q >= 10
    ensures StockBadge(q) == Yellow <==> q < 10 && q != 0
    ensures q < 0 ==> StockBadge(q) == Yellow
  {
  }

  const InvalidQuantity: string := "Debes ingresar una cantidad válida"

  /** The dialog's validator: it rejects a missing, empty or negative value
      and accepts every other, zero included. */
  function QuantityValidator(v: NumberField): (message: Option<string>)
    ensures message.None? <==> v.NumberInput? && v.n >= 0
    ensures message.Some? ==> message.value == InvalidQuantity
  {
    if v.NullInput? || v.EmptyInput? || v.n < 0 then Some(InvalidQuantity) else None
  }

  /** The page's own state over the articles hook. */
  class ArticlesView {
    const hook: ArticlesHook
    var filtered: seq<Article>
    var editing: Option<Article>
    var modalOpen: bool

    constructor (hook: ArticlesHook)
      ensures this.hook == hook && filtered == [] && editing.None? && !modalOpen
    {
      this.hook := hook;
      filtered := [];
      editing := None;
      modalOpen := false;
    }

    /** `displayArticles`. */
    function Displayed(): seq<Article>
      reads this, hook
    {
      Display(filtered, hook.articles)
    }

    /** `handleSearch`: a blank term clears the search, any other filters
        the hook's list. */
    method HandleSearch(term: string)
      modifies this
      ensures IsBlank(term) ==> filtered == []
      ensures !IsBlank(term) ==> filtered == MatchingArticles(hook.articles, term)
      ensures editing == old(editing) && modalOpen == old(modalOpen)
    {
      if IsBlank(term) {
        filtered := [];
        return;
      }
      filtered := MatchingArticles(hook.articles, term);
    }

    /** `handleCreateArticle`. */
    method HandleCreateArticle()
      modifies this
      ensures editing.None? && modalOpen && filtered == old(filtered)
    {
      editing := None;
      modalOpen := true;
    }

    /** `handleEditArticle`. */
    method HandleEditArticle(a: Article)
      modifies this
      ensures editing == Some(a) && modalOpen && filtered == old(filtered)
    {
      editing := Some(a);
      modalOpen := true;
    }

    /** `handleSubmitArticle`: update the article being edited, or create a
        new one; the form closes only when the operation succeeded. */
    method HandleSubmitArticle(confirmed: bool, reply: Reply<()>, reload: Reply<seq<Article>>)
      returns (result: OpResult)
      modifies this, hook
      ensures var call := if old(editing).Some? then ArticleCall.UpdateArticle(NatText(old(editing).value.id)) else ArticleCall.CreateArticle;
        hook.State() == Operated(old(hook.State()), call, confirmed, reply, reload)
      ensures result == OperationResult(confirmed, reply)
      ensures result.success ==> !modalOpen && editing.None?
      ensures !result.success ==> modalOpen == old(modalOpen) && editing == old(editing)
      ensures filtered == old(filtered)
    {
      if editing.Some? {
        result := hook.UpdateArticle(NatText(editing.value.id), confirmed, reply, reload);
      } else {
        result := hook.CreateArticle(confirmed, reply, reload);
      }
      if result.success {
        modalOpen := false;
        editing := None;
      }
    }

    /** `handleUpdateQuantity`. The dialog only closes with a value its
        validator accepts, or with no value when it is cancelled; only a
        value leads to the hook's quantity update, with that whole number. */
    method HandleUpdateQuantity(id: nat, answer: Option<NumberField>, confirmed: bool, reply: Reply<()>, reload: Reply<seq<Article>>)
      requires answer.Some? ==> QuantityValidator(answer.value).None?
      modifies hook
      ensures answer.None? ==> hook.State() == old(hook.State())
      ensures answer.Some? ==> answer.value.n >= 0
      ensures answer.Some? ==>
                hook.State() == Operated(old(hook.State()), ArticleCall.UpdateQuantity(NatText(id), answer.value.n), confirmed, reply, reload)
    {
      if answer.Some? {
        var r := hook.UpdateQuantity(NatText(id), answer.value.n, confirmed, reply, reload);
      }
    }
  }
}
