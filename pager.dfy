/** The episode pager of `prompt_for_episode_number`: the episodes sorted by
    number, labelled "Episode <number>", shown 25 to a page with
    "previous" and "next" affordances, until a label is chosen. The
    interactive prompt is replaced by a script of answers. */
module Pager {
  import opened Wrappers
  import opened Text
  import opened Models

  const PageSize: nat := 25
  const NextPage: string := "\U{25B6} Next page"
  const PreviousPage: string := "\U{25C0} Previous page"
  const EpisodePrefix: string := "Episode "

  // ------------------------------------------------------------------ sorting

  predicate SortedByNumber(s: seq<EpisodeMeta>) {
    forall i, j :: 0 <= i < j < |s| ==> s[i].number <= s[j].number
  }

  /** Exchanges two elements of the array and leaves the others alone. */
  method Swap(a: array<EpisodeMeta>, i: nat, j: nat)
    requires i < a.Length && j < a.Length
    modifies a
    ensures a[i] == old(a[j]) && a[j] == old(a[i])
    ensures forall k :: 0 <= k < a.Length && k != i && k != j ==> a[k] == old(a[k])
    ensures multiset(a[..]) == multiset(old(a[..]))
  {
    a[i], a[j] := a[j], a[i];
  }

  /** The in-place sort by ascending `number` (numbers are reals, so the
      comparison is total and never panics). */
  method SortByNumber(a: array<EpisodeMeta>)
    modifies a
    ensures SortedByNumber(a[..])
    ensures multiset(a[..]) == multiset(old(a[..]))
  {
    var i := 1;
    while i < a.Length
      invariant a.Length == 0 || 1 <= i <= a.Length
      invariant forall k, l :: 0 <= k < l < i && l < a.Length ==> a[k].number <= a[l].number
      invariant multiset(a[..]) == multiset(old(a[..]))
    {
      var j := i;
      while j > 0 && a[j - 1].number > a[j].number
        invariant 0 <= j <= i
        invariant forall k, l :: 0 <= k < l <= i && l != j ==> a[k].number <= a[l].number
        invariant forall l :: j < l <= i ==> a[j].number <= a[l].number
        invariant multiset(a[..]) == multiset(old(a[..]))
      {
        Swap(a, j - 1, j);
        j := j - 1;
      }
      i := i + 1;
    }
  }

  /** `episodes.to_vec()` followed by the sort: a sorted permutation of the
      episodes. */
  method SortedCopy(episodes: seq<EpisodeMeta>) returns (sorted: seq<EpisodeMeta>)
    ensures SortedByNumber(sorted)
    ensures multiset(sorted) == multiset(episodes)
  {
    var a := new EpisodeMeta[|episodes|](i requires 0 <= i < |episodes| => episodes[i]);
    assert a[..] == episodes;
    SortByNumber(a);
    sorted := a[..];
  }

  /** The episode numbers, in order. */
  function Numbers(s: seq<EpisodeMeta>): seq<real> {
    seq(|s|, i requires 0 <= i < |s| => s[i].number)
  }

  predicate Ascending(s: seq<real>) {
    forall i, j :: 0 <= i < j < |s| ==> s[i] <= s[j]
  }

  lemma NumbersConcat(u: seq<EpisodeMeta>, v: seq<EpisodeMeta>)
    ensures Numbers(u + v) == Numbers(u) + Numbers(v)
  {
  }

  /** Permuting the episodes permutes their numbers. */
  lemma {:induction false} NumbersPermuted(a: seq<EpisodeMeta>, b: seq<EpisodeMeta>)
    requires multiset(a) == multiset(b)
    ensures multiset(Numbers(a)) == multiset(Numbers(b))
    decreases |a|
  {
    if a == [] {
      assert |b| == |multiset(b)| == 0;
    } else {
      var x := a[0];
      assert x in multiset(b);
      var j :| 0 <= j < |b| && b[j] == x;
      var b' := b[..j] + b[j + 1..];
      assert b == b[..j] + [x] + b[j + 1..];
      assert a == [x] + a[1..];
      assert multiset(a[1..]) == multiset(a) - multiset([x]);
      assert multiset(b') == multiset(b) - multiset([x]);
      NumbersPermuted(a[1..], b');
      NumbersConcat([x], a[1..]);
      NumbersConcat(b[..j] + [x], b[j + 1..]);
      NumbersConcat(b[..j], [x]);
      NumbersConcat(b[..j], b[j + 1..]);
    }
  }

  /** The first of an ascending sequence is its least element. */
  lemma AscendingHead(a: seq<real>, x: real)
    requires Ascending(a) && x in multiset(a)
    ensures a != [] && a[0] <= x
  {
    var k :| 0 <= k < |a| && a[k] == x;
  }

  lemma AscendingTail(a: seq<real>)
    requires Ascending(a) && a != []
    ensures Ascending(a[1..]) && multiset(a[1..]) == multiset(a) - multiset([a[0]])
  {
    assert a == [a[0]] + a[1..];
  }

  /** Two ascending sequences of numbers holding the same numbers are equal. */
  lemma {:induction false} AscendingUnique(a: seq<real>, b: seq<real>)
    requires Ascending(a) && Ascending(b) && multiset(a) == multiset(b)
    ensures a == b
    decreases |a|
  {
    if a == [] {
      assert |b| == |multiset(b)| == 0;
    } else {
      AscendingHead(b, a[0]);
      AscendingHead(a, b[0]);
      var x := a[0];
      assert b[0] == x;
      AscendingTail(a);
      AscendingTail(b);
      AscendingUnique(a[1..], b[1..]);
      assert a == [x] + a[1..] && b == [x] + b[1..];
    }
  }

  /** Any two orders of the episodes that are sorted by number put the same
      number at every position: the sort determines the numbers shown. */
  lemma SortedNumbersUnique(a: seq<EpisodeMeta>, b: seq<EpisodeMeta>)
    requires SortedByNumber(a) && SortedByNumber(b) && multiset(a) == multiset(b)
    ensures Numbers(a) == Numbers(b)
  {
    NumbersPermuted(a, b);
    AscendingUnique(Numbers(a), Numbers(b));
  }

  // ------------------------------------------------------------------- labels

  /** `format!("Episode {}", number)`, with the number's display text given
      by `fmt`. */
  function Label(e: EpisodeMeta, fmt: real -> string): string {
    EpisodePrefix + fmt(e.number)
  }

  /** One label per sorted episode, in the same order. */
  function Labels(sorted: seq<EpisodeMeta>, fmt: real -> string): (labels: seq<string>)
    ensures |labels| == |sorted|
    ensures forall i :: 0 <= i < |sorted| ==> labels[i] == Label(sorted[i], fmt)
  {
    seq(|sorted|, i requires 0 <= i < |sorted| => Label(sorted[i], fmt))
  }

  predicate AllLabels(labels: seq<string>) {
    forall i :: 0 <= i < |labels| ==> StartsWith(labels[i], EpisodePrefix)
  }

  lemma LabelsAreLabels(sorted: seq<EpisodeMeta>, fmt: real -> string)
    ensures AllLabels(Labels(sorted, fmt))
  {
    forall i | 0 <= i < |sorted| ensures StartsWith(Labels(sorted, fmt)[i], EpisodePrefix) {
      assert (EpisodePrefix + fmt(sorted[i].number))[..|EpisodePrefix|] == EpisodePrefix;
    }
  }

  /** Sorted orders of the same episodes get the same labels, whichever
      order the sort leaves episodes with equal numbers in. */
  lemma SortedLabelsUnique(a: seq<EpisodeMeta>, b: seq<EpisodeMeta>, fmt: real -> string)
    requires SortedByNumber(a) && SortedByNumber(b) && multiset(a) == multiset(b)
    ensures Labels(a, fmt) == Labels(b, fmt)
  {
    SortedNumbersUnique(a, b);
    forall i | 0 <= i < |a| ensures Labels(a, fmt)[i] == Labels(b, fmt)[i] {
      assert Numbers(a)[i] == Numbers(b)[i];
    }
  }

  /** No label can be mistaken for a paging affordance. */
  lemma AffordancesAreNotLabels(text: string)
    requires StartsWith(text, EpisodePrefix)
    ensures text != NextPage && text != PreviousPage
  {
    assert text[0] == 'E';
  }

  // -------------------------------------------------------------------- pages

  function PageStart(page: nat): nat {
    page * PageSize
  }

  /** `(start + PAGE_SIZE).min(labels.len())`. */
  function PageEnd(len: nat, page: nat): nat {
    if PageStart(page) + PageSize < len then PageStart(page) + PageSize else len
  }

  /** A page the pager can be on: the first, or one that starts inside the
      labels. */
  predicate ValidPage(len: nat, page: nat) {
    page == 0 || PageStart(page) < len
  }

  /** Every label lies on exactly one page, and that page is valid: the
      pages partition the labels. */
  lemma {:induction false} PagesPartition(len: nat, i: nat)
    requires i < len
    ensures ValidPage(len, i / PageSize)
    ensures PageStart(i / PageSize) <= i < PageEnd(len, i / PageSize)
    ensures forall p: nat :: PageStart(p) <= i < PageEnd(len, p) ==> p == i / PageSize
  {
    forall p: nat | PageStart(p) <= i < PageEnd(len, p) ensures p == i / PageSize {
      assert p * PageSize <= i < p * PageSize + PageSize;
    }
  }

  /** The items offered on a page: "previous" first when the page is not the
      first, then the page's slice of labels, then "next" when labels remain
      after it. */
  function PageView(labels: seq<string>, page: nat): seq<string>
    requires PageStart(page) <= |labels|
  {
    var start, end := PageStart(page), PageEnd(|labels|, page);
    (if page > 0 then [PreviousPage] else []) + labels[start..end]
    + (if end < |labels| then [NextPage] else [])
  }

  /** The layout of a page: "previous" at the front exactly after the first
      page, the page's labels in order, "next" at the back exactly when
      labels remain. */
  lemma PageViewShape(labels: seq<string>, page: nat)
    requires PageStart(page) <= |labels|
    ensures var items := PageView(labels, page);
            var offset := if page > 0 then 1 else 0;
            var start, end := PageStart(page), PageEnd(|labels|, page);
            && |items| == offset + (end - start) + (if end < |labels| then 1 else 0)
            && (page > 0 ==> items[0] == PreviousPage)
            && (forall j :: offset <= j < offset + (end - start) ==> items[j] == labels[start + j - offset])
            && (end < |labels| ==> items[|items| - 1] == NextPage)
  {
  }

  /** With well-formed labels, "next" is offered exactly when labels remain
      after the page and "previous" exactly when the page is not the first. */
  lemma {:induction false} AffordancesOffered(labels: seq<string>, page: nat)
    requires AllLabels(labels) && ValidPage(|labels|, page)
    ensures NextPage in PageView(labels, page) <==> PageEnd(|labels|, page) < |labels|
    ensures PreviousPage in PageView(labels, page) <==> page > 0
  {
    var items := PageView(labels, page);
    var start, end := PageStart(page), PageEnd(|labels|, page);
    var offset := if page > 0 then 1 else 0;
    PageViewShape(labels, page);
    forall j | offset <= j < offset + (end - start) ensures items[j] != NextPage && items[j] != PreviousPage {
      AffordancesAreNotLabels(labels[start + j - offset]);
    }
    assert NextPage != PreviousPage;
    if NextPage in items {
      var j :| 0 <= j < |items| && items[j] == NextPage;
      assert j != 0 || page == 0;
      assert !(offset <= j < offset + (end - start));
    }
    if PreviousPage in items {
      var j :| 0 <= j < |items| && items[j] == PreviousPage;
      assert !(offset <= j < offset + (end - start));
    }
  }

  // ---------------------------------------------------------------- transitions

  /** What choosing an item does: move to another page, or end with the
      chosen label's text after "Episode ". */
  datatype Transition = GoTo(page: nat) | Chosen(episode: Option<string>)

  /** The `match` on the selected item. Underflow of `current_page -= 1` is
      excluded by the requirement, which offered items always meet. */
  function Step(page: nat, selected: string): Transition
    requires selected == PreviousPage ==> page > 0
  {
    if selected == NextPage then GoTo(page + 1)
    else if selected == PreviousPage then GoTo(page - 1)
    else Chosen(StripPrefix(selected, EpisodePrefix))
  }

  /** Choosing an offered item never leaves the valid pages, and choosing
      anything but an affordance returns the text of one of the page's
      labels after its "Episode " prefix. */
  lemma {:induction false} OfferedStep(labels: seq<string>, page: nat, i: nat)
    requires AllLabels(labels) && ValidPage(|labels|, page)
    requires i < |PageView(labels, page)|
    ensures PageView(labels, page)[i] == PreviousPage ==> page > 0
    ensures PageView(labels, page)[i] == PreviousPage || PageView(labels, page)[i] == NextPage ||
              exists k :: PageStart(page) <= k < PageEnd(|labels|, page) && labels[k] == PageView(labels, page)[i]
    ensures PageView(labels, page)[i] == PreviousPage ==> ValidPage(|labels|, page - 1)
    ensures PageView(labels, page)[i] == NextPage ==> ValidPage(|labels|, page + 1)
  {
    var items := PageView(labels, page);
    var start, end := PageStart(page), PageEnd(|labels|, page);
    var offset := if page > 0 then 1 else 0;
    AffordancesOffered(labels, page);
    PageViewShape(labels, page);
    if offset <= i < offset + (end - start) {
      assert items[i] == labels[start + i - offset];
    }
    if items[i] == PreviousPage {
      assert page > 0;
      assert PageStart(page - 1) < PageStart(page);
    }
    if items[i] == NextPage {
      assert end < |labels|;
      assert PageStart(page + 1) == end;
    }
  }

  /** Next, then Previous on the page it leads to, comes back to the same
      page. */
  lemma {:induction false} NextThenPrevious(labels: seq<string>, page: nat)
    requires AllLabels(labels) && ValidPage(|labels|, page)
    requires NextPage in PageView(labels, page)
    ensures Step(page, NextPage) == GoTo(page + 1)
    ensures ValidPage(|labels|, page + 1) && PreviousPage in PageView(labels, page + 1)
    ensures Step(page + 1, PreviousPage) == GoTo(page)
  {
    AffordancesOffered(labels, page);
    assert PageStart(page + 1) == PageEnd(|labels|, page);
    AffordancesOffered(labels, page + 1);
  }

  /** Choosing the `k`-th label of a page returns the display text of that
      episode's number. */
  lemma {:induction false} ChoosingALabel(sorted: seq<EpisodeMeta>, fmt: real -> string, page: nat, k: nat)
    requires ValidPage(|sorted|, page)
    requires PageStart(page) + k < PageEnd(|sorted|, page)
    ensures var items := PageView(Labels(sorted, fmt), page);
            var i := (if page > 0 then 1 else 0) + k;
            && i < |items| && items[i] != PreviousPage
            && Step(page, items[i]) == Chosen(Some(fmt(sorted[PageStart(page) + k].number)))
  {
    var labels := Labels(sorted, fmt);
    var e := sorted[PageStart(page) + k];
    AffordancesAreNotLabels(labels[PageStart(page) + k]) by {
      LabelsAreLabels(sorted, fmt);
    }
    PageViewShape(labels, page);
    StripPrefixOfConcat(EpisodePrefix, fmt(e.number));
  }

  // ------------------------------------------------------------- the prompt loop

  /** One answer to the prompt: cancelled (or failed), or the index of the
      item picked. */
  datatype Answer = Cancel | Pick(index: nat)

  /** The end of one round of the prompt: the loop returns `result`, or it
      goes on at page `next`. */
  datatype Outcome = Done(result: Option<string>) | Continue(next: nat)

  /** "previous" is offered only after the first page. */
  lemma PreviousOnlyAfterFirst(labels: seq<string>, page: nat, i: nat)
    requires AllLabels(labels) && ValidPage(|labels|, page)
    requires i < |PageView(labels, page)|
    ensures PageView(labels, page)[i] == PreviousPage ==> page > 0
  {
    OfferedStep(labels, page, i);
  }

  /** One round of the loop on `page`: a cancelled (or failed) prompt and
      an index outside the offered items end it with nothing; otherwise the
      selected item decides. */
  function Round(labels: seq<string>, page: nat, answer: Answer): Outcome
    requires AllLabels(labels) && ValidPage(|labels|, page)
  {
    match answer
    case Cancel => Done(None)
    case Pick(i) =>
      var items := PageView(labels, page);
      if i >= |items| then Done(None)
      else
        PreviousOnlyAfterFirst(labels, page, i);
        match Step(page, items[i])
        case Chosen(episode) => Done(episode)
        case GoTo(p) => Continue(p)
  }

  /** A round that goes on lands on a valid page, one page away. */
  lemma {:induction false} RoundMoves(labels: seq<string>, page: nat, answer: Answer)
    requires AllLabels(labels) && ValidPage(|labels|, page)
    ensures Round(labels, page, answer).Continue? ==>
              ValidPage(|labels|, Round(labels, page, answer).next) &&
              (Round(labels, page, answer).next == page + 1 || Round(labels, page, answer).next + 1 == page)
  {
    if answer.Pick? && answer.index < |PageView(labels, page)| {
      OfferedStep(labels, page, answer.index);
    }
  }

  /** A round that ends with a result ends with the text after "Episode "
      of one of the page's labels. */
  lemma {:induction false} RoundReturnsALabel(labels: seq<string>, page: nat, answer: Answer)
    requires AllLabels(labels) && ValidPage(|labels|, page)
    ensures Round(labels, page, answer).Done? && Round(labels, page, answer).result.Some? ==>
              exists k :: PageStart(page) <= k < PageEnd(|labels|, page) &&
                          labels[k] == EpisodePrefix + Round(labels, page, answer).result.value
  {
    match answer
    case Cancel =>
    case Pick(i) =>
      var items := PageView(labels, page);
      if i < |items| {
        OfferedStep(labels, page, i);
        if items[i] != NextPage && items[i] != PreviousPage {
          var k :| PageStart(page) <= k < PageEnd(|labels|, page) && labels[k] == items[i];
          assert StripPrefix(items[i], EpisodePrefix).Some? ==>
                   labels[k] == EpisodePrefix + StripPrefix(items[i], EpisodePrefix).value;
        }
      }
  }

  /** The outcome of the prompt loop from `page` on, given the remaining
      answers; an exhausted script ends with nothing, as a failed prompt
      does. */
  function Run(labels: seq<string>, page: nat, answers: seq<Answer>): Option<string>
    requires AllLabels(labels) && ValidPage(|labels|, page)
    decreases |answers|
  {
    if answers == [] then None
    else
      RoundMoves(labels, page, answers[0]);
      match Round(labels, page, answers[0])
      case Done(result) => result
      case Continue(p) => Run(labels, p, answers[1..])
  }

  /** Whatever the answers, a result is the text after "Episode " of one of
      the labels. */
  lemma {:induction false} RunChoosesALabel(labels: seq<string>, page: nat, answers: seq<Answer>)
    requires AllLabels(labels) && ValidPage(|labels|, page)
    requires Run(labels, page, answers).Some?
    ensures exists k :: 0 <= k < |labels| && labels[k] == EpisodePrefix + Run(labels, page, answers).value
    decreases |answers|
  {
    RoundMoves(labels, page, answers[0]);
    RoundReturnsALabel(labels, page, answers[0]);
    match Round(labels, page, answers[0])
    case Done(result) =>
    case Continue(p) =>
      RunChoosesALabel(labels, p, answers[1..]);
  }

  /** One round that goes on to page `next`: the rest of the script is
      played from there. */
  lemma RunContinues(labels: seq<string>, page: nat, a: Answer, rest: seq<Answer>, next: nat)
    requires AllLabels(labels) && ValidPage(|labels|, page)
    requires Round(labels, page, a) == Continue(next)
    ensures ValidPage(|labels|, next)
    ensures Run(labels, page, [a] + rest) == Run(labels, next, rest)
  {
    RoundMoves(labels, page, a);
    assert ([a] + rest)[0] == a && ([a] + rest)[1..] == rest;
  }

  /** Pages start further on the further the pager goes. */
  lemma PageStartMonotone(p: nat, q: nat)
    requires p <= q
    ensures PageStart(p) <= PageStart(q)
  {
    assert PageStart(q) == PageStart(p) + (q - p) * PageSize;
  }

  /** Where "next" sits on a page that offers it: after the page's full
      slice of labels, itself after "previous" on every page but the first. */
  function NextIndex(page: nat): nat {
    if page == 0 then PageSize else PageSize + 1
  }

  /** Picking Next `n` times, starting on `page`. */
  function Forward(page: nat, n: nat): seq<Answer>
    decreases n
  {
    if n == 0 then [] else [Pick(NextIndex(page))] + Forward(page + 1, n - 1)
  }

  /** Picking Previous `n` times: after the first page it is always the
      first item offered. */
  function Backward(n: nat): seq<Answer> {
    seq(n, _ => Pick(0))
  }

  /** Choosing Next on a page that offers it, one followed by a valid page,
      goes to that page. */
  lemma {:induction false} RoundNext(labels: seq<string>, page: nat)
    requires AllLabels(labels) && ValidPage(|labels|, page + 1)
    ensures ValidPage(|labels|, page)
    ensures Round(labels, page, Pick(NextIndex(page))) == Continue(page + 1)
  {
    assert PageStart(page + 1) == PageStart(page) + PageSize;
    PageViewShape(labels, page);
    AffordancesOffered(labels, page);
    var items := PageView(labels, page);
    assert NextIndex(page) == |items| - 1;
    assert items[|items| - 1] == NextPage;
    if page > 0 {
      assert items[0] == PreviousPage;
    }
  }

  /** Choosing the first item after the first page goes to the page before. */
  lemma {:induction false} RoundPrevious(labels: seq<string>, page: nat)
    requires AllLabels(labels) && ValidPage(|labels|, page) && page > 0
    ensures Round(labels, page, Pick(0)) == Continue(page - 1)
  {
    PageViewShape(labels, page);
  }

  /** The first of `n` Nexts moves to the following page. */
  lemma ForwardStep(labels: seq<string>, page: nat, n: nat, rest: seq<Answer>)
    requires AllLabels(labels) && ValidPage(|labels|, page + 1) && n > 0
    ensures ValidPage(|labels|, page)
    ensures Run(labels, page, Forward(page, n) + rest) == Run(labels, page + 1, Forward(page + 1, n - 1) + rest)
  {
    RoundNext(labels, page);
    var tail := Forward(page + 1, n - 1) + rest;
    assert Forward(page, n) + rest == [Pick(NextIndex(page))] + tail;
    RunContinues(labels, page, Pick(NextIndex(page)), tail, page + 1);
  }

  /** `n` Nexts from `page` land on page `page + n`, when that page exists. */
  lemma {:induction false} ForwardRun(labels: seq<string>, page: nat, n: nat, rest: seq<Answer>)
    requires AllLabels(labels) && ValidPage(|labels|, page) && ValidPage(|labels|, page + n)
    ensures Run(labels, page, Forward(page, n) + rest) == Run(labels, page + n, rest)
    decreases n
  {
    if n == 0 {
      assert Forward(page, n) + rest == rest;
    } else {
      PageStartMonotone(page + 1, page + n);
      var next, m := page + 1, n - 1;
      assert next + m == page + n;
      ForwardStep(labels, page, n, rest);
      ForwardRun(labels, next, m, rest);
    }
  }

  /** The first of `n` Previous choices moves to the page before. */
  lemma BackwardStep(labels: seq<string>, page: nat, n: nat, rest: seq<Answer>)
    requires AllLabels(labels) && ValidPage(|labels|, page) && 0 < n <= page
    ensures ValidPage(|labels|, page - 1)
    ensures Run(labels, page, Backward(n) + rest) == Run(labels, page - 1, Backward(n - 1) + rest)
  {
    RoundPrevious(labels, page);
    var tail := Backward(n - 1) + rest;
    assert Backward(n) + rest == [Pick(0)] + tail;
    RunContinues(labels, page, Pick(0), tail, page - 1);
  }

  /** `n` Previous choices from page `page` land on page `page - n`. */
  lemma {:induction false} BackwardRun(labels: seq<string>, page: nat, n: nat, rest: seq<Answer>)
    requires AllLabels(labels) && ValidPage(|labels|, page) && n <= page
    ensures ValidPage(|labels|, page - n)
    ensures Run(labels, page, Backward(n) + rest) == Run(labels, page - n, rest)
    decreases n
  {
    if n == 0 {
      assert Backward(n) + rest == rest;
    } else {
      BackwardStep(labels, page, n, rest);
      BackwardRun(labels, page - 1, n - 1, rest);
    }
  }

  /** Paging forward `n` times and back `n` times returns to the same page:
      whatever follows is played from where the pager started. */
  lemma ThereAndBack(labels: seq<string>, page: nat, n: nat, rest: seq<Answer>)
    requires AllLabels(labels) && ValidPage(|labels|, page) && ValidPage(|labels|, page + n)
    ensures Run(labels, page, Forward(page, n) + Backward(n) + rest) == Run(labels, page, rest)
  {
    ForwardRun(labels, page, n, Backward(n) + rest);
    assert Forward(page, n) + Backward(n) + rest == Forward(page, n) + (Backward(n) + rest);
    BackwardRun(labels, page + n, n, rest);
  }

  lemma PrefixCancel(p: string, s: string, t: string)
    requires p + s == p + t
    ensures s == t
  {
    assert s == (p + s)[|p|..];
    assert t == (p + t)[|p|..];
  }

  /** The items of one page as the loop builds them: the slice of labels,
      "next" pushed at the end when labels remain, "previous" inserted at
      the front after the first page. */
  method PageItems(labels: seq<string>, page: nat) returns (items: seq<string>)
    requires ValidPage(|labels|, page)
    ensures items == PageView(labels, page)
  {
    var start := page * PageSize;
    var end := if start + PageSize < |labels| then start + PageSize else |labels|;
    items := labels[start..end];
    if end < |labels| {
      items := items + [NextPage];
    }
    if page > 0 {
      items := [PreviousPage] + items;
    }
  }

  /** The body of the `loop` of `prompt_for_episode_number`: build the
      page's items, read an answer, then move or return. */
  method PageRound(labels: seq<string>, page: nat, answer: Answer) returns (o: Outcome)
    requires AllLabels(labels) && ValidPage(|labels|, page)
    ensures o == Round(labels, page, answer)
  {
    var items := PageItems(labels, page);
    match answer {
      case Cancel =>
        return Done(None);
      case Pick(i) =>
        if i >= |items| {
          return Done(None);
        }
        var selected := items[i];
        OfferedStep(labels, page, i);
        if selected == NextPage {
          return Continue(page + 1);
        } else if selected == PreviousPage {
          return Continue(page - 1);
        } else {
          return Done(StripPrefix(selected, EpisodePrefix));
        }
    }
  }

  /** The `loop` of `prompt_for_episode_number` over well-formed labels. */
  method PageLoop(labels: seq<string>, answers: seq<Answer>) returns (r: Option<string>)
    requires AllLabels(labels)
    ensures r == Run(labels, 0, answers)
  {
    var page: nat := 0;
    var n := 0;
    while n < |answers|
      invariant n <= |answers|
      invariant ValidPage(|labels|, page)
      invariant Run(labels, 0, answers) == Run(labels, page, answers[n..])
      decreases |answers| - n
    {
      var o := PageRound(labels, page, answers[n]);
      RoundMoves(labels, page, answers[n]);
      assert answers[n..][0] == answers[n] && answers[n..][1..] == answers[n + 1..];
      match o {
        case Done(result) =>
          return result;
        case Continue(p) =>
          page := p;
      }
      n := n + 1;
    }
    return None;
  }

  /** `prompt_for_episode_number`: sort a copy, label it, then page until a
      label is chosen or the prompt fails. `sorted` is the copy after the
      sort. */
  method PromptForEpisodeNumber(episodes: seq<EpisodeMeta>, fmt: real -> string, answers: seq<Answer>)
    returns (r: Option<string>, ghost sorted: seq<EpisodeMeta>)
    ensures SortedByNumber(sorted) && multiset(sorted) == multiset(episodes)
    ensures r == Run(Labels(sorted, fmt), 0, answers)
    ensures forall s :: SortedByNumber(s) && multiset(s) == multiset(episodes) ==>
              Labels(s, fmt) == Labels(sorted, fmt) && r == Run(Labels(s, fmt), 0, answers)
    ensures r.Some? ==> exists e :: e in episodes && r.value == fmt(e.number)
  {
    var copy := SortedCopy(episodes);
    sorted := copy;
    var labels := Labels(copy, fmt);
    LabelsAreLabels(copy, fmt);
    r := PageLoop(labels, answers);
    forall s | SortedByNumber(s) && multiset(s) == multiset(episodes)
      ensures Labels(s, fmt) == Labels(sorted, fmt) && r == Run(Labels(s, fmt), 0, answers)
    {
      SortedLabelsUnique(s, sorted, fmt);
    }
    ResultIsAnEpisode(episodes, sorted, fmt, answers, r);
  }

  lemma ResultIsAnEpisode(episodes: seq<EpisodeMeta>, sorted: seq<EpisodeMeta>, fmt: real -> string,
                          answers: seq<Answer>, r: Option<string>)
    requires multiset(sorted) == multiset(episodes)
    requires AllLabels(Labels(sorted, fmt))
    requires r == Run(Labels(sorted, fmt), 0, answers)
    ensures r.Some? ==> exists e :: e in episodes && r.value == fmt(e.number)
  {
    if r.Some? {
      var labels := Labels(sorted, fmt);
      RunChoosesALabel(labels, 0, answers);
      var k :| 0 <= k < |labels| && labels[k] == EpisodePrefix + r.value;
      PrefixCancel(EpisodePrefix, fmt(sorted[k].number), r.value);
      assert sorted[k] in multiset(episodes);
    }
  }
}
