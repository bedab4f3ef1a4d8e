/**
 * The FAQ page's search: questions inside each category are narrowed to
 * those whose question or answer contains the term (ignoring case),
 * categories left empty are dropped, and the questions are counted before
 * and after.
 */
module Faq {
  import opened Text
  import opened Seqs

  datatype Question = Question(question: string, answer: string)

  /** A category; `icon` names the icon component it is drawn with. */
  datatype Category = Category(id: string, title: string, icon: string, color: string, questions: seq<Question>)

  predicate QuestionMatches(q: Question, searchTerm: string) {
    Includes(ToLower(q.question), ToLower(searchTerm)) || Includes(ToLower(q.answer), ToLower(searchTerm))
  }

  /** The predicate handed to the inner `filter`. */
  function Matching(searchTerm: string): Question -> bool {
    (q: Question) => QuestionMatches(q, searchTerm)
  }

  /** The predicate handed to the outer `filter`. */
  predicate HasQuestions(c: Category) {
    |c.questions| > 0
  }

  /** `{ ...category, questions: category.questions.filter(...) }`. */
  function Narrowed(c: Category, searchTerm: string): (r: Category)
    ensures r.id == c.id && r.title == c.title && r.icon == c.icon && r.color == c.color
    ensures forall q ::
      multiset(r.questions)[q] == if QuestionMatches(q, searchTerm) then multiset(c.questions)[q] else 0
    ensures forall q :: q in r.questions <==> q in c.questions && QuestionMatches(q, searchTerm)
    ensures IsSubsequence(r.questions, c.questions)
  {
    var p := Matching(searchTerm);
    FilterIsSubsequence(c.questions, p);
    forall q ensures multiset(Filter(c.questions, p))[q] == if p(q) then multiset(c.questions)[q] else 0 {
      FilterMultiplicity(c.questions, p, q);
    }
    c.(questions := Filter(c.questions, p))
  }

  /** The `map` step: every category keeps its header and only its matching questions, in order. */
  function NarrowedAll(categories: seq<Category>, searchTerm: string): (r: seq<Category>)
    ensures |r| == |categories|
    ensures forall i :: 0 <= i < |r| ==>
      r[i].id == categories[i].id && r[i].title == categories[i].title &&
      r[i].icon == categories[i].icon && r[i].color == categories[i].color &&
      IsSubsequence(r[i].questions, categories[i].questions)
    ensures forall i, q :: 0 <= i < |r| ==>
      multiset(r[i].questions)[q] == if QuestionMatches(q, searchTerm) then multiset(categories[i].questions)[q] else 0
    ensures forall i, q :: 0 <= i < |r| ==>
      (q in r[i].questions <==> q in categories[i].questions && QuestionMatches(q, searchTerm))
  {
    seq(|categories|, i requires 0 <= i < |categories| => Narrowed(categories[i], searchTerm))
  }

  /** `filteredCategories`. */
  function FilteredCategories(categories: seq<Category>, searchTerm: string): seq<Category> {
    Filter(NarrowedAll(categories, searchTerm), HasQuestions)
  }

  /** `reduce((sum, category) => sum + category.questions.length, 0)`. */
  function QuestionCount(categories: seq<Category>): (n: nat)
  {
    if categories == [] then 0
    else QuestionCount(categories[..|categories| - 1]) + |categories[|categories| - 1].questions|
  }

  /** Every question shown matches the term, and sits in a category it came from. */
  lemma ResultOnlyMatches(categories: seq<Category>, searchTerm: string)
    ensures forall c, q :: c in FilteredCategories(categories, searchTerm) && q in c.questions ==>
      QuestionMatches(q, searchTerm) &&
      exists orig :: orig in categories && c == Narrowed(orig, searchTerm) && q in orig.questions
  {
  }

  /** No matching question is lost: its category is shown, narrowed, with the question in it. */
  lemma ResultKeepsEveryMatch(categories: seq<Category>, searchTerm: string, c: Category, q: Question)
    requires c in categories && q in c.questions && QuestionMatches(q, searchTerm)
    ensures Narrowed(c, searchTerm) in FilteredCategories(categories, searchTerm)
    ensures q in Narrowed(c, searchTerm).questions
  {
  }

  /** No empty category is shown. */
  lemma ResultHasNoEmptyCategory(categories: seq<Category>, searchTerm: string)
    ensures forall i :: 0 <= i < |FilteredCategories(categories, searchTerm)| ==>
      |FilteredCategories(categories, searchTerm)[i].questions| > 0
  {
  }

  /** The search reorders nothing: the categories shown are a subsequence of the narrowed ones. */
  lemma ResultKeepsOrder(categories: seq<Category>, searchTerm: string)
    ensures IsSubsequence(FilteredCategories(categories, searchTerm), NarrowedAll(categories, searchTerm))
  {
    FilterIsSubsequence(NarrowedAll(categories, searchTerm), HasQuestions);
  }

  /** An empty term keeps every question, and every category that has any. */
  lemma {:induction false} EmptyTermKeepsAll(categories: seq<Category>)
    ensures NarrowedAll(categories, "") == categories
    ensures (forall i :: 0 <= i < |categories| ==> HasQuestions(categories[i])) ==>
      FilteredCategories(categories, "") == categories
  {
    forall i | 0 <= i < |categories| ensures Narrowed(categories[i], "") == categories[i] {
      var qs := categories[i].questions;
      forall k | 0 <= k < |qs| ensures Matching("")(qs[k]) {
        IncludesEmpty(ToLower(qs[k].question));
      }
      FilterKeepsAll(qs, Matching(""));
    }
    if forall i :: 0 <= i < |categories| ==> HasQuestions(categories[i]) {
      FilterKeepsAll(categories, HasQuestions);
    }
  }

  /** Dropping empty categories does not change the count. */
  lemma {:induction false} DroppingEmptyKeepsCount(categories: seq<Category>)
    ensures QuestionCount(Filter(categories, HasQuestions)) == QuestionCount(categories)
    decreases |categories|
  {
    if categories != [] {
      var last := categories[|categories| - 1];
      var front := categories[..|categories| - 1];
      assert categories == front + [last];
      FilterAppend(front, [last], HasQuestions);
      DroppingEmptyKeepsCount(front);
      CountAppend(Filter(front, HasQuestions), Filter([last], HasQuestions));
    }
  }

  /** The count of two lists of categories put together is the sum of their counts. */
  lemma {:induction false} CountAppend(a: seq<Category>, b: seq<Category>)
    ensures QuestionCount(a + b) == QuestionCount(a) + QuestionCount(b)
    decreases |b|
  {
    if b == [] {
      assert a + b == a;
    } else {
      var front := b[..|b| - 1];
      assert (a + b)[..|a + b| - 1] == a + front;
      CountAppend(a, front);
    }
  }

  /** Narrowing never adds questions. */
  lemma {:induction false} NarrowingCountsFewer(categories: seq<Category>, searchTerm: string)
    ensures QuestionCount(NarrowedAll(categories, searchTerm)) <= QuestionCount(categories)
    decreases |categories|
  {
    if categories != [] {
      var front := categories[..|categories| - 1];
      assert NarrowedAll(categories, searchTerm)[..|categories| - 1] == NarrowedAll(front, searchTerm);
      NarrowingCountsFewer(front, searchTerm);
    }
  }

  /** `filteredQuestions` never exceeds `totalQuestions`, and equals it for the empty term. */
  lemma FilteredCountBounded(categories: seq<Category>, searchTerm: string)
    ensures QuestionCount(FilteredCategories(categories, searchTerm)) <= QuestionCount(categories)
    ensures searchTerm == "" ==> QuestionCount(FilteredCategories(categories, searchTerm)) == QuestionCount(categories)
  {
    DroppingEmptyKeepsCount(NarrowedAll(categories, searchTerm));
    NarrowingCountsFewer(categories, searchTerm);
    if searchTerm == "" {
      EmptyTermKeepsAll(categories);
    }
  }
}
