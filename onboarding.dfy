/** The onboarding pager (OnboardingViewController): the pages are swiped
    through cyclically and the page indicator follows the displayed page. */
module Onboarding {
  import opened Base

  /** A page's view controller, by identity. */
  type Page = nat

  /** `pages.firstIndex(of:)`. */
  function FirstIndex(pages: seq<Page>, p: Page): (r: Option<nat>)
    ensures r.None? <==> p !in pages
    ensures r.Some? ==> r.value < |pages| && pages[r.value] == p && p !in pages[..r.value]
  {
    if pages == [] then None
    else if pages[0] == p then Some(0)
    else
      match FirstIndex(pages[1..], p)
      case None => None
      case Some(i) =>
        assert pages[..i + 1] == [pages[0]] + pages[1..][..i];
        Some(i + 1)
  }

  /** `viewControllerBefore`: the previous page, wrapping from the first to
      the last; none for a page that is not in the list. */
  function Before(pages: seq<Page>, p: Page): (r: Option<Page>)
    ensures p !in pages ==> r.None?
    ensures p in pages ==> r.Some? && r.value in pages
  {
    match FirstIndex(pages, p)
    case None => None
    case Some(i) => if i - 1 >= 0 then Some(pages[i - 1]) else Some(pages[|pages| - 1])
  }

  /** `viewControllerAfter`: the next page, wrapping from the last to the
      first; none for a page that is not in the list. */
  function After(pages: seq<Page>, p: Page): (r: Option<Page>)
    ensures p !in pages ==> r.None?
    ensures p in pages ==> r.Some? && r.value in pages
  {
    match FirstIndex(pages, p)
    case None => None
    case Some(i) => if i + 1 < |pages| then Some(pages[i + 1]) else Some(pages[0])
  }

  lemma FirstIndexOfDistinct(pages: seq<Page>, i: nat)
    requires Distinct(pages) && i < |pages|
    ensures FirstIndex(pages, pages[i]) == Some(i)
  {
  }

  /** The index swiped to backwards from `i`: the previous one, the last
      from the first. */
  function PrevIndex(i: nat, n: nat): nat
    requires i < n
  {
    if i == 0 then n - 1 else i - 1
  }

  /** The index swiped to forwards from `i`: the next one, the first from
      the last. */
  function NextIndex(i: nat, n: nat): nat
    requires i < n
  {
    if i + 1 < n then i + 1 else 0
  }

  lemma BeforeIndex(pages: seq<Page>, i: nat)
    requires Distinct(pages) && i < |pages|
    ensures Before(pages, pages[i]) == Some(pages[PrevIndex(i, |pages|)])
  {
    FirstIndexOfDistinct(pages, i);
  }

  lemma AfterIndex(pages: seq<Page>, i: nat)
    requires Distinct(pages) && i < |pages|
    ensures After(pages, pages[i]) == Some(pages[NextIndex(i, |pages|)])
  {
    FirstIndexOfDistinct(pages, i);
  }

  /** Swiping back then forward, or forward then back, returns to the page
      one started from. */
  lemma BeforeAfterInverse(pages: seq<Page>, p: Page)
    requires Distinct(pages) && p in pages
    ensures After(pages, Before(pages, p).value) == Some(p)
    ensures Before(pages, After(pages, p).value) == Some(p)
  {
    var i :| 0 <= i < |pages| && pages[i] == p;
    var n := |pages|;
    BeforeIndex(pages, i);
    AfterIndex(pages, i);
    AfterIndex(pages, PrevIndex(i, n));
    BeforeIndex(pages, NextIndex(i, n));
  }

  class OnboardingViewController {
    /** `pages`: two distinct page controllers. */
    const pages: seq<Page>
    /** `pageControl.currentPage`. */
    var currentPage: nat

    constructor ()
      ensures pages == [0, 1] && currentPage == 0
      ensures Distinct(pages)
    {
      pages := [0, 1];
      currentPage := 0;
    }

    /** `didFinishAnimating`: the indicator moves to the index of the page
        now displayed; a page outside the list leaves it where it was. */
    method DidFinishAnimating(displayed: Option<Page>)
      modifies this`currentPage
      ensures displayed.Some? && displayed.value in pages ==>
                currentPage < |pages| && pages[currentPage] == displayed.value
      ensures !(displayed.Some? && displayed.value in pages) ==> currentPage == old(currentPage)
    {
      if displayed.Some? {
        var currentIndex := FirstIndex(pages, displayed.value);
        if currentIndex.Some? {
          currentPage := currentIndex.value;
        }
      }
    }
  }

  /** After a swipe from page `i` the indicator shows the next (or
      previous) index, cyclically. */
  lemma IndicatorAfterSwipe(pages: seq<Page>, i: nat)
    requires Distinct(pages) && i < |pages|
    ensures FirstIndex(pages, After(pages, pages[i]).value) == Some(NextIndex(i, |pages|))
    ensures FirstIndex(pages, Before(pages, pages[i]).value) == Some(PrevIndex(i, |pages|))
  {
    AfterIndex(pages, i);
    BeforeIndex(pages, i);
    FirstIndexOfDistinct(pages, NextIndex(i, |pages|));
    FirstIndexOfDistinct(pages, PrevIndex(i, |pages|));
  }
}
