/** The learning hub: the article list split into the official and the
    community tab and filtered by category, and the form that publishes a
    community article. */
module LearningHub {
  import opened Types
  import Text
  import Seqs

  /** The two tabs: articles of the platform, and those written by users. */
  datatype ViewMode = Official | Community

  const AllFilter := "Todos"

  /** An article is listed when it belongs to the tab and passes the
      category filter ('Todos' passes every category). */
  predicate Listed(a: Article, viewMode: ViewMode, filter: string)
  {
    (viewMode == Official ==> !a.isUserGenerated)
    && (viewMode == Community ==> a.isUserGenerated)
    && (filter == AllFilter || a.category == filter)
  }

  /** `filteredArticles`: the listed articles, in their original order. */
  function FilteredArticles(articles: seq<Article>, viewMode: ViewMode, filter: string): (r: seq<Article>)
    ensures Seqs.IsSubseq(r, articles)
    ensures forall a :: a in r <==> a in articles && Listed(a, viewMode, filter)
  {
    Seqs.FilterIsSubseq(articles, a => Listed(a, viewMode, filter));
    Seqs.Filter(articles, a => Listed(a, viewMode, filter))
  }

  predicate InCategory(a: Article, filter: string)
  {
    filter == AllFilter || a.category == filter
  }

  /** The two tabs split the articles of a category between them: each
      article of the category is in exactly one of them, as many times as
      it occurs. */
  lemma TabsSplitArticles(articles: seq<Article>, filter: string)
    ensures multiset(FilteredArticles(articles, Official, filter)) + multiset(FilteredArticles(articles, Community, filter))
         == multiset(Seqs.Filter(articles, a => InCategory(a, filter)))
  {
    var off := FilteredArticles(articles, Official, filter);
    var com := FilteredArticles(articles, Community, filter);
    var all := Seqs.Filter(articles, a => InCategory(a, filter));
    forall a ensures (multiset(off) + multiset(com))[a] == multiset(all)[a] {
      Seqs.FilterCounts(articles, x => Listed(x, Official, filter), a);
      Seqs.FilterCounts(articles, x => Listed(x, Community, filter), a);
      Seqs.FilterCounts(articles, x => InCategory(x, filter), a);
    }
  }

  predicate HasText(p: string)
  {
    |Text.Trim(p)| > 0
  }

  /** The article text as typed, cut into paragraphs at line breaks; the
      blank lines are dropped, every other one kept untrimmed, as often as
      it occurs and in order. */
  function Paragraphs(contentInput: string): (r: seq<string>)
    ensures forall p :: p in r ==> '\n' !in p && !Text.AllWhitespace(p)
    ensures Seqs.IsSubseq(r, Text.Split(contentInput, '\n'))
    ensures forall p :: multiset(r)[p] == if HasText(p) then multiset(Text.Split(contentInput, '\n'))[p] else 0
  {
    var lines := Text.Split(contentInput, '\n');
    Seqs.FilterIsSubseq(lines, HasText);
    Seqs.FilterCountsAll(lines, HasText);
    forall p | p in Seqs.Filter(lines, HasText) ensures !Text.AllWhitespace(p) {
      Text.TrimEmptyIffBlank(p);
    }
    Seqs.Filter(lines, HasText)
  }

  /** Paragraphs without line breaks, none blank, written one per line,
      come back unchanged. */
  lemma ParagraphsOfLines(paragraphs: seq<string>)
    requires |paragraphs| >= 1
    requires forall i :: 0 <= i < |paragraphs| ==> '\n' !in paragraphs[i] && !Text.AllWhitespace(paragraphs[i])
    ensures Paragraphs(Text.Join(paragraphs, ['\n'])) == paragraphs
  {
    Text.SplitJoin(paragraphs, '\n');
    forall i | 0 <= i < |paragraphs| ensures HasText(paragraphs[i]) {
      Text.TrimEmptyIffBlank(paragraphs[i]);
    }
    Seqs.FilterAll(paragraphs, HasText);
  }

  /** The publish form, each field possibly left empty. */
  datatype ArticleForm = ArticleForm(
    title: Option<string>,
    excerpt: Option<string>,
    imageUrl: Option<string>,
    category: string,
    author: Option<string>,
    readTime: Option<string>)

  /** `handleAddArticle`: the article the form describes, or nothing (the
      alert) when the title, excerpt, text or image is missing. `now`
      stands for `Date.now()`; `userId` and `userName` are the signed-in
      user's, when there is one. */
  function HandleAddArticle(form: ArticleForm, contentInput: string, now: nat,
                            userId: Option<string>, userName: Option<string>): (r: Option<Article>)
    ensures r.None? <==> Falsy(form.title) || Falsy(form.excerpt) || contentInput == "" || Falsy(form.imageUrl)
    ensures r.Some? ==>
      && r.value.title == form.title.value && r.value.excerpt == form.excerpt.value
      && r.value.imageUrl == form.imageUrl.value && r.value.category == form.category
      && r.value.userId == userId
      && r.value.content == Paragraphs(contentInput)
      && r.value.likes == 0 && r.value.likedBy == [] && r.value.comments == []
      && r.value.isUserGenerated
      && r.value.author == OrElse(form.author, OrElse(userName, "Comunidade"))
      && r.value.readTime == OrElse(form.readTime, "3 min")
  {
    if Falsy(form.title) || Falsy(form.excerpt) || contentInput == "" || Falsy(form.imageUrl) then None
    else
      Some(Article(
        Text.NatToString(now),
        userId,
        form.title.value,
        form.excerpt.value,
        form.imageUrl.value,
        form.category,
        OrElse(form.author, OrElse(userName, "Comunidade")),
        OrElse(form.readTime, "3 min"),
        Paragraphs(contentInput),
        0, [], [], true))
  }

  /** A published article is listed in the community tab under 'Todos'
      and under its own category, and never in the official tab. */
  lemma PublishedIsCommunity(form: ArticleForm, contentInput: string, now: nat,
                             userId: Option<string>, userName: Option<string>, filter: string)
    ensures var r := HandleAddArticle(form, contentInput, now, userId, userName);
      r.Some? ==>
        && Listed(r.value, Community, AllFilter) && Listed(r.value, Community, form.category)
        && !Listed(r.value, Official, filter)
  {
  }
}
