/** The paging loop of `task_record.py` that reads a Runtime's whole event history, or refuses. */
module TaskHistory {
  import opened Lists

  /** An event as far as paging looks at it; `Malformed` is anything that is not an object. */
  datatype Event = Event(sequence: int, body: nat) | Malformed

  datatype Page = Page(head: int, events: seq<Event>)

  const PAGE := 1000
  const MAX_EVENTS := 10_000
  const MAX_PAGES := MAX_EVENTS / PAGE

  function Min(a: int, b: int): (m: int) {
    if a <= b then a else b
  }

  /** Consecutive sequence numbers from `first`. */
  predicate Gapless(es: seq<Event>, first: int) {
    forall i :: 0 <= i < |es| ==> es[i].Event? && es[i].sequence == first + i
  }

  /** The events of the first `k` pages, each page asked for after all the events before it. */
  ghost function Collected(pages: nat -> Page, k: nat): (es: seq<Event>) {
    if k == 0 then []
    else Collected(pages, k - 1) + pages(|Collected(pages, k - 1)|).events
  }

  /** The first page is full or complete, and starts at 1. */
  ghost predicate GoodFirst(page: Page) {
    0 <= page.head <= MAX_EVENTS && |page.events| == Min(page.head, PAGE) && Gapless(page.events, 1)
  }

  /** A later page agrees on the head, is not empty, and goes on where the history stops. */
  ghost predicate GoodPage(head: int, history: seq<Event>, page: Page) {
    && page.head == head && page.events != [] && |history| + |page.events| <= MAX_EVENTS
    && Gapless(page.events, |history| + 1)
  }

  ghost predicate GoesOn(pages: nat -> Page, j: nat) {
    var c := Collected(pages, j);
    |c| != pages(0).head && GoodPage(pages(0).head, c, pages(|c|))
  }

  /** Exactly `k` pages make up the whole history. */
  ghost predicate Complete(pages: nat -> Page, k: nat) {
    && 1 <= k <= MAX_PAGES && GoodFirst(pages(0))
    && (forall j :: 1 <= j < k ==> GoesOn(pages, j))
    && |Collected(pages, k)| == pages(0).head
  }

  method CheckGapless(es: seq<Event>, first: int) returns (ok: bool)
    ensures ok <==> Gapless(es, first)
  {
    for i := 0 to |es|
      invariant Gapless(es[..i], first)
    {
      if es[i].Malformed? || es[i].sequence != first + i {
        assert !Gapless(es, first);
        return false;
      }
    }
    assert es[..|es|] == es;
    return true;
  }

  /** The first page's checks. */
  method FirstPage(page: Page) returns (ok: bool)
    ensures ok <==> GoodFirst(page)
  {
    if page.head < 0 || page.head > MAX_EVENTS {
      return false;
    }
    if |page.events| > PAGE || |page.events| != Min(page.head, PAGE) {
      return false;
    }
    ok := CheckGapless(page.events, 1);
  }

  /** A later page's checks. */
  method LaterPage(head: int, history: seq<Event>, page: Page) returns (ok: bool)
    ensures ok <==> GoodPage(head, history, page)
  {
    if page.head != head || page.events == [] {
      return false;
    }
    if |history| + |page.events| > MAX_EVENTS {
      return false;
    }
    ok := CheckGapless(page.events, |history| + 1);
  }

  /** `read_execution_history`, its paging part. Each `after` is asked for at most once, so `pages` stands for any
      sequence of answers. A history is returned exactly when some number of pages, each good and asked for after the
      events before it, is complete, and then it is their concatenation. */
  method ReadHistory(pages: nat -> Page) returns (result: Option<seq<Event>>)
    ensures result.Some? <==> exists k: nat :: Complete(pages, k)
    ensures result.Some? ==> exists k: nat :: Complete(pages, k) && result.value == Collected(pages, k)
  {
    var ok := FirstPage(pages(0));
    if !ok {
      return None;
    }
    var head, history := pages(0).head, pages(0).events;
    assert Collected(pages, 0) == [] && Collected(pages, 1) == history;
    var k: nat := 1;
    while k < MAX_PAGES && |history| != head
      invariant 1 <= k <= MAX_PAGES && history == Collected(pages, k)
      invariant forall j :: 1 <= j < k ==> GoesOn(pages, j)
    {
      ok := LaterPage(head, history, pages(|history|));
      if !ok {
        NeverComplete(pages, k);
        return None;
      }
      assert GoesOn(pages, k);
      history := history + pages(|history|).events;
      k := k + 1;
    }
    if |history| != head {
      NeverComplete(pages, k);
      return None;
    }
    assert Complete(pages, k);
    return Some(history);
  }

  /** A history that stops short of its head is never completed. */
  lemma NeverComplete(pages: nat -> Page, k: nat)
    requires 1 <= k <= MAX_PAGES && (forall j :: 1 <= j < k ==> GoesOn(pages, j))
    requires |Collected(pages, k)| != pages(0).head && (k == MAX_PAGES || !GoesOn(pages, k))
    ensures forall m: nat :: !Complete(pages, m)
  {
    forall m: nat
      ensures !Complete(pages, m)
    {
      if m < k {
        assert m >= 1 ==> GoesOn(pages, m);
      }
    }
  }

  // ---------------------------------------------------------------- what a complete history is

  lemma GaplessAppend(a: seq<Event>, b: seq<Event>)
    requires Gapless(a, 1) && Gapless(b, |a| + 1)
    ensures Gapless(a + b, 1)
  {
  }

  lemma {:induction false} CollectedGapless(pages: nat -> Page, k: nat, j: nat)
    requires Complete(pages, k) && 1 <= j <= k
    ensures Gapless(Collected(pages, j), 1) && pages(0).events <= Collected(pages, j)
  {
    if j == 1 {
      assert Collected(pages, 0) == [];
    } else {
      CollectedGapless(pages, k, j - 1);
      var c := Collected(pages, j - 1);
      assert GoesOn(pages, j - 1);
      GaplessAppend(c, pages(|c|).events);
    }
  }

  /** A complete history has exactly the sequence numbers 1 to the head, at most 10 000. */
  lemma CompleteIsGapless(pages: nat -> Page, k: nat)
    requires Complete(pages, k)
    ensures Gapless(Collected(pages, k), 1) && |Collected(pages, k)| == pages(0).head <= MAX_EVENTS
  {
    CollectedGapless(pages, k, k);
  }

  /** The pages a Runtime with exactly this log serves. */
  ghost predicate Serves(pages: nat -> Page, log: seq<Event>) {
    forall after: nat :: after <= |log| ==> pages(after) == Page(|log|, log[after..Min(after + PAGE, |log|)])
  }

  lemma {:induction false} ServedPrefix(pages: nat -> Page, log: seq<Event>, k: nat)
    requires Serves(pages, log)
    ensures Collected(pages, k) == log[..Min(k * PAGE, |log|)]
  {
    if k > 0 {
      ServedPrefix(pages, log, k - 1);
      var from, to := Min((k - 1) * PAGE, |log|), Min(k * PAGE, |log|);
      assert pages(from) == Page(|log|, log[from..to]);
      assert log[..from] + log[from..to] == log[..to];
    }
  }

  /** A Runtime that serves a gapless log within the bound has that very log returned. */
  lemma ServedIsComplete(pages: nat -> Page, log: seq<Event>) returns (k: nat)
    requires Serves(pages, log) && Gapless(log, 1) && |log| <= MAX_EVENTS
    ensures Complete(pages, k) && Collected(pages, k) == log
  {
    k := if |log| == 0 then 1 else (|log| + PAGE - 1) / PAGE;
    ServedPrefix(pages, log, k);
    assert log[..|log|] == log;
    assert pages(0) == Page(|log|, log[0..Min(PAGE, |log|)]);
    forall j: nat | 1 <= j < k
      ensures GoesOn(pages, j)
    {
      ServedGoesOn(pages, log, j);
    }
  }

  lemma ServedGoesOn(pages: nat -> Page, log: seq<Event>, j: nat)
    requires Serves(pages, log) && Gapless(log, 1) && |log| <= MAX_EVENTS && j * PAGE < |log|
    ensures GoesOn(pages, j)
  {
    ServedPrefix(pages, log, j);
    var c := Collected(pages, j);
    assert |c| == j * PAGE;
    assert pages(0) == Page(|log|, log[0..Min(PAGE, |log|)]);
    assert pages(|c|) == Page(|log|, log[|c|..Min(|c| + PAGE, |log|)]);
  }

  /** There is only one such number of pages, so the result is determined. */
  lemma CompleteOnce(pages: nat -> Page, j: nat, k: nat)
    requires Complete(pages, j) && Complete(pages, k)
    ensures j == k
  {
    if j < k {
      NotEarlier(pages, j, k);
    } else if k < j {
      NotEarlier(pages, k, j);
    }
  }

  lemma NotEarlier(pages: nat -> Page, j: nat, k: nat)
    requires Complete(pages, k) && 1 <= j < k
    ensures |Collected(pages, j)| != pages(0).head
  {
    assert GoesOn(pages, j);
  }
}
