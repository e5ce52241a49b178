/**
  The navigation back-stack of the Compose front-end: an ordered list of
  pages in push order, whose last element is the page on screen.

  The source keeps the list in a mutable `ArrayList`; here a stack is an
  immutable value and every mutating operation returns the new stack.
*/
module PagesManager {
  import opened Options

  /** A page of the stack. The stack only ever looks at `id`, the url the
      page was loaded from; `content` stands for the rest of the page (its
      rendered state), which the stack never inspects. */
  datatype Page = Page(id: string, content: nat)

  /** The list of pages, oldest first. */
  datatype Stack = Stack(pages: seq<Page>)

  /** A freshly constructed manager holds no page. */
  const Empty: Stack := Stack([])

  /** `add` returns the `Boolean` of `ArrayList.add` beside the new stack. */
  datatype AddResult = AddResult(stack: Stack, added: bool)

  /** `popLastPage` returns whether it removed a page beside the new stack. */
  datatype PopResult = PopResult(stack: Stack, popped: bool)

  /** `getPageCount`: the number of pages on the stack. */
  function Count(s: Stack): (r: nat)
    ensures r == 0 <==> s == Empty
  {
    |s.pages|
  }

  /** `add`: pushes `page` on top of the stack. */
  function Add(s: Stack, page: Page): (r: AddResult)
    ensures r.added
    ensures Count(r.stack) == Count(s) + 1
    ensures r.stack.pages[..Count(s)] == s.pages
    ensures r.stack.pages[Count(s)] == page
  {
    AddResult(Stack(s.pages + [page]), true)
  }

  /** `removeLastPage`: drops the top page. The source's `removeLast` throws
      on an empty list; its only caller guarantees two pages or more. */
  function RemoveLastPage(s: Stack): (r: Stack)
    requires Count(s) >= 1
    ensures r.pages + [s.pages[Count(s) - 1]] == s.pages
  {
    Stack(s.pages[..|s.pages| - 1])
  }

  /** `popLastPage`: removes the top page unless it is the only one left
      (or the stack is empty), and says whether it removed one. */
  function PopLastPage(s: Stack): (r: PopResult)
    ensures r.popped <==> Count(s) >= 2
    ensures !r.popped ==> r.stack == s
    ensures r.popped ==> Count(r.stack) == Count(s) - 1
    ensures r.popped ==> r.stack.pages + [s.pages[Count(s) - 1]] == s.pages
  {
    if |s.pages| <= 1 then PopResult(s, false)
    else PopResult(RemoveLastPage(s), true)
  }

  /** `removeAllPages`: empties the stack. */
  function RemoveAllPages(s: Stack): (r: Stack)
    ensures Count(r) == 0
  {
    Empty
  }

  /** `i` is the position of the earliest page whose id is `url`. */
  predicate IsFirstMatch(pages: seq<Page>, url: string, i: int) {
    && 0 <= i < |pages|
    && pages[i].id == url
    && forall j :: 0 <= j < i ==> pages[j].id != url
  }

  /** No page of `pages` has id `url`. */
  predicate NoMatch(pages: seq<Page>, url: string) {
    forall j :: 0 <= j < |pages| ==> pages[j].id != url
  }

  /** The index that `firstOrNull { it.id == url }` stops at, scanning from
      the oldest page. */
  function FirstIndexOf(pages: seq<Page>, url: string): (r: Option<nat>)
    ensures r.None? <==> NoMatch(pages, url)
    ensures r.Some? ==> IsFirstMatch(pages, url, r.value)
    decreases |pages|
  {
    if |pages| == 0 then None
    else if pages[0].id == url then Some(0)
    else
      match FirstIndexOf(pages[1..], url)
      case None => None
      case Some(k) => Some(k + 1)
  }

  /** `getPageBy`: the earliest page whose id is `url`, or none. */
  function GetPageBy(s: Stack, url: string): (r: Option<Page>)
    ensures r.None? <==> NoMatch(s.pages, url)
    ensures r.Some? ==> r.value.id == url
    ensures r.Some? ==> exists i :: IsFirstMatch(s.pages, url, i) && s.pages[i] == r.value
  {
    match FirstIndexOf(s.pages, url)
    case None => None
    case Some(i) => Some(s.pages[i])
  }

  /** A first match is unique: at most one position is the earliest. */
  lemma FirstMatchUnique(pages: seq<Page>, url: string, i: int, j: int)
    requires IsFirstMatch(pages, url, i) && IsFirstMatch(pages, url, j)
    ensures i == j
  {
  }

  /** Popping `n` times in a row. */
  function PopTimes(s: Stack, n: nat): Stack
    decreases n
  {
    if n == 0 then s else PopTimes(PopLastPage(s).stack, n - 1)
  }

  /** How many pages survive `n` pops of a stack of `count >= 1` pages. */
  function Kept(count: nat, n: nat): nat {
    if count - n >= 1 then count - n else 1
  }

  /** With removal synchronous, back presses on a non-empty stack remove
      pages from the top, one per call, and stop at the first page: the
      stack never becomes empty. */
  lemma {:induction false} PopTimesKeepsFirstPage(s: Stack, n: nat)
    requires Count(s) >= 1
    ensures PopTimes(s, n).pages == s.pages[..Kept(Count(s), n)]
    ensures Count(PopTimes(s, n)) >= 1
    decreases n
  {
    if n == 0 {
      assert s.pages[..Count(s)] == s.pages;
    } else {
      var r := PopLastPage(s);
      assert PopTimes(s, n) == PopTimes(r.stack, n - 1);
      PopTimesKeepsFirstPage(r.stack, n - 1);
      if r.popped {
        var k := Kept(Count(s), n);
        assert Kept(Count(r.stack), n - 1) == k;
        assert r.stack.pages == s.pages[..Count(s) - 1];
        assert r.stack.pages[..k] == s.pages[..k];
      } else {
        assert Kept(Count(s), n) == 1 == Kept(Count(r.stack), n - 1);
      }
    }
  }

  /** `popLastPage` undoes `add` on a non-empty stack. */
  lemma PopUndoesAdd(s: Stack, page: Page)
    requires Count(s) >= 1
    ensures PopLastPage(Add(s, page).stack) == PopResult(s, true)
  {
  }

  /** Looking a url up in a prefix of the stack finds the same page as in
      the whole stack when that page lies in the prefix, and none otherwise. */
  lemma FirstIndexOfPrefix(pages: seq<Page>, url: string, n: nat)
    requires n <= |pages|
    ensures FirstIndexOf(pages[..n], url) ==
      match FirstIndexOf(pages, url)
      case Some(k) => if k < n then Some(k) else None
      case None => None
  {
  }

  /** After `add`, a lookup still finds the page it found before; only a url
      that was absent can now resolve to the new page. */
  lemma GetPageByAfterAdd(s: Stack, page: Page, url: string)
    ensures GetPageBy(Add(s, page).stack, url) ==
      match GetPageBy(s, url)
      case Some(p) => Some(p)
      case None => if page.id == url then Some(page) else None
  {
  }

  /** After a successful `popLastPage`, a lookup finds what it found before
      when that page lay below the removed top, and nothing otherwise. */
  lemma GetPageByAfterPop(s: Stack, url: string)
    requires PopLastPage(s).popped
    ensures GetPageBy(PopLastPage(s).stack, url) ==
      match FirstIndexOf(s.pages, url)
      case Some(k) => if k < Count(s) - 1 then Some(s.pages[k]) else None
      case None => None
  {
  }

  /** A cleared stack has no page to pop and none to find, and the next
      `add` makes it a one-page stack. */
  lemma ClearedStack(s: Stack, page: Page, url: string)
    ensures !PopLastPage(RemoveAllPages(s)).popped
    ensures GetPageBy(RemoveAllPages(s), url).None?
    ensures Add(RemoveAllPages(s), page).stack.pages == [page]
  {
  }
}
