/**
 Bounded previews of tool results: newline-snapped cuts with an exact elision marker, a
 preview plus recovery footer within one budget, and the per-turn aggregate budget.
 */
module SpillPreview {
  import opened Common

  const MIN_AGGREGATE_KEEP := 2000
  const MIN_PREVIEW_CHARS := 500
  const MIN_SIDE_CHARS := 200
  const SPILL_MIN_CHARS := 1500

  datatype Mode = Middle | HeadMode

  datatype Shape = Head | HeadAndTail

  // ---- Numbers with thousands separators ----

  function Digit(n: nat): char
    requires n < 10
  {
    "0123456789"[n]
  }

  function Digits(n: nat): string {
    if n < 10 then [Digit(n)] else Digits(n / 10) + [Digit(n % 10)]
  }

  function Grouped(n: nat): string {
    if n < 1000 then Digits(n)
    else Grouped(n / 1000) + "," + [Digit(n / 100 % 10), Digit(n / 10 % 10), Digit(n % 10)]
  }

  function DigitValue(c: char): nat {
    if '0' <= c <= '9' then c as int - '0' as int else 0
  }

  /** The number a reader takes a grouped numeral for. */
  function Value(s: string): nat {
    if s == "" then 0
    else
      var last := s[|s| - 1];
      if last == ',' then Value(s[..|s| - 1]) else 10 * Value(s[..|s| - 1]) + DigitValue(last)
  }

  lemma ValueAppend(s: string, d: nat)
    requires d < 10
    ensures Value(s + [Digit(d)]) == 10 * Value(s) + d
  {
    assert (s + [Digit(d)])[..|s|] == s;
    assert Digit(d) as int - '0' as int == d;
  }

  lemma {:induction false} DigitsValue(n: nat)
    ensures Value(Digits(n)) == n
  {
    if n < 10 {
      ValueAppend("", n);
      assert "" + [Digit(n)] == [Digit(n)];
    } else {
      DigitsValue(n / 10);
      ValueAppend(Digits(n / 10), n % 10);
    }
  }

  /** The count in a marker can be read back. */
  lemma {:induction false} GroupedValue(n: nat)
    ensures Value(Grouped(n)) == n
  {
    if n < 1000 {
      DigitsValue(n);
    } else {
      GroupedValue(n / 1000);
      var s := Grouped(n / 1000) + ",";
      assert s[..|s| - 1] == Grouped(n / 1000);
      ValueAppend(s, n / 100 % 10);
      ValueAppend(s + [Digit(n / 100 % 10)], n / 10 % 10);
      ValueAppend(s + [Digit(n / 100 % 10)] + [Digit(n / 10 % 10)], n % 10);
      assert Grouped(n) == s + [Digit(n / 100 % 10)] + [Digit(n / 10 % 10)] + [Digit(n % 10)];
      ThreeDigits(n);
    }
  }

  /** Digits, and a comma before every third one counted from the end. */
  predicate IsGrouped(s: string) { s != "" && forall k :: 0 <= k < |s| ==> InGroup(s, k) }

  /** The k-th character from the end. */
  predicate InGroup(s: string, k: nat)
    requires k < |s|
  {
    var c := s[|s| - 1 - k];
    if k % 4 == 3 then c == ',' else IsDigit(c)
  }

  predicate IsDigit(c: char) { '0' <= c <= '9' }

  lemma DigitIsDigit(n: nat)
    requires n < 10
    ensures IsDigit(Digit(n)) && (Digit(n) == '0' ==> n == 0)
  {
    assert Digit(n) as int - '0' as int == n;
  }

  lemma {:induction false} DigitsAreDigits(n: nat)
    ensures forall i :: 0 <= i < |Digits(n)| ==> IsDigit(Digits(n)[i])
  {
    DigitIsDigit(n % 10);
    if n >= 10 {
      DigitsAreDigits(n / 10);
    }
  }

  lemma GroupJoins(head: string, a: char, b: char, c: char)
    requires IsGrouped(head) && IsDigit(a) && IsDigit(b) && IsDigit(c)
    ensures IsGrouped(head + "," + [a, b, c])
  {
    var all := head + "," + [a, b, c];
    forall k | 0 <= k < |all| ensures InGroup(all, k) {
      if k >= 4 {
        assert all[|all| - 1 - k] == head[|head| - 1 - (k - 4)];
        assert InGroup(head, k - 4);
      }
    }
  }

  lemma {:induction false} GroupedForm(n: nat)
    ensures IsGrouped(Grouped(n)) && (Grouped(n)[0] == '0' ==> n == 0)
  {
    if n < 1000 {
      DigitsAreDigits(n);
      DigitsGrow(n, 999);
      assert |Digits(999)| == 3;
      LeadingDigit(n);
    } else {
      GroupedForm(n / 1000);
      DigitIsDigit(n / 100 % 10);
      DigitIsDigit(n / 10 % 10);
      DigitIsDigit(n % 10);
      GroupJoins(Grouped(n / 1000), Digit(n / 100 % 10), Digit(n / 10 % 10), Digit(n % 10));
    }
  }

  lemma {:induction false} LeadingDigit(n: nat)
    ensures |Digits(n)| > 0 && (Digits(n)[0] == '0' ==> n == 0)
  {
    DigitIsDigit(n % 10);
    if n >= 10 {
      LeadingDigit(n / 10);
    }
  }

  lemma ThreeDigits(n: nat)
    ensures 1000 * (n / 1000) + 100 * (n / 100 % 10) + 10 * (n / 10 % 10) + n % 10 == n
  {
    assert n / 100 == n / 10 / 10 && n / 1000 == n / 100 / 10;
  }

  lemma {:induction false} DigitsGrow(m: nat, n: nat)
    requires m <= n
    ensures 1 <= |Digits(m)| <= |Digits(n)|
    decreases n
  {
    if m >= 10 {
      DigitsGrow(m / 10, n / 10);
    } else if n >= 10 {
      DigitsGrow(0, n / 10);
    }
  }

  lemma {:induction false} GroupedGrows(m: nat, n: nat)
    requires m <= n
    ensures |Grouped(m)| <= |Grouped(n)|
    decreases n
  {
    if m >= 1000 {
      GroupedGrows(m / 1000, n / 1000);
    } else if n < 1000 {
      DigitsGrow(m, n);
    } else {
      DigitsGrow(m, 999);
      assert |Digits(999)| == 3;
    }
  }

  // ---- Cuts ----

  function Elision(removed: nat): string {
    "\n\U{2026} " + Grouped(removed) + " chars elided \U{2026}\n"
  }

  function ElisionLength(removed: nat): nat { 19 + |Grouped(removed)| }

  lemma ElisionHasLength(removed: nat)
    ensures |Elision(removed)| == ElisionLength(removed)
  {}

  /** The last newline in `text[lo..hi]`, or -1. */
  function LastNewline(text: string, lo: nat, hi: nat): (r: int)
    requires hi <= |text|
    ensures r == -1 || (lo <= r < hi && text[r] == '\n')
    ensures forall i :: lo <= i < hi && i > r ==> text[i] != '\n'
    decreases hi
  {
    if hi <= lo then -1 else if text[hi - 1] == '\n' then hi - 1 else LastNewline(text, lo, hi - 1)
  }

  /** The first newline in `text[lo..hi]`, or -1. */
  function FirstNewline(text: string, lo: nat, hi: nat): (r: int)
    requires hi <= |text|
    ensures r == -1 || (lo <= r < hi && text[r] == '\n')
    ensures forall i :: lo <= i < hi && (r == -1 || i < r) ==> text[i] != '\n'
    decreases hi - lo
  {
    if hi <= lo then -1 else if text[lo] == '\n' then lo else FirstNewline(text, lo + 1, hi)
  }

  predicate NoNewline(text: string, lo: nat, hi: nat) {
    forall i :: lo <= i < hi && i < |text| ==> text[i] != '\n'
  }

  /** Where a head of at most `budget` ends: before a newline in its second half if there is one. */
  function HeadEnd(text: string, budget: nat): (r: nat)
    ensures budget / 2 <= r <= budget || r == |text| <= budget
    ensures r <= |text|
    ensures budget < |text| && r < budget ==> r > 0 && text[r] == '\n' && forall i :: r < i < budget ==> text[i] != '\n'
    ensures budget < |text| && r == budget ==> forall i :: budget / 2 <= i < budget && i > 0 ==> text[i] != '\n'
  {
    if budget >= |text| then |text|
    else
      var newline := LastNewline(text, budget / 2, budget);
      if newline > 0 then newline else budget
  }

  /** Where a tail of at most `budget` starts: after a newline in its first half if there is one. */
  function TailStart(text: string, budget: nat): (r: nat)
    ensures r <= |text| && |text| - r <= budget && (budget < |text| ==> |text| - r >= budget - Max(budget / 2, 1))
    ensures var start := Max(|text| - budget, 0);
            if r == start then start > 0 ==> NoNewline(text, start, start + Max(budget / 2, 1))
            else r > start && text[r - 1] == '\n' && NoNewline(text, start, r - 1)
  {
    var start := Max(|text| - budget, 0);
    if start == 0 then 0
    else
      var newline := FirstNewline(text, start, Min(start + Max(budget / 2, 1), |text|));
      if newline != -1 then newline + 1 else start
  }

  /** A head, the marker and a tail. */
  function Marked(text: string, head: nat, tail: nat): string
    requires head <= tail <= |text|
  {
    text[..head] + Elision(tail - head) + text[tail..]
  }

  /** The marked preview that leaves `room` for text; its head always ends before its tail. */
  function MarkedCut(text: string, room: nat): string
    requires room < |text|
  {
    var head := HeadEnd(text, room / 2);
    var tail := TailStart(text, room - room / 2);
    Marked(text, head, tail)
  }

  function Truncate(text: string, budget: int, mode: Mode): (string, Shape) {
    if budget <= 0 then ("", Head)
    else if |text| <= budget then (text, HeadAndTail)
    else if mode == HeadMode then (text[..HeadEnd(text, budget)], Head)
    else
      var room := budget - ElisionLength(|text|);
      if room < 2 * MIN_SIDE_CHARS then (text[..HeadEnd(text, budget)], Head)
      else (MarkedCut(text, room), HeadAndTail)
  }

  /** A line of its own that says how many characters are missing, in a grouped numeral. */
  predicate Reports(marker: string, count: nat) {
    var before, after := "\n\U{2026} ", " chars elided \U{2026}\n";
    && |marker| > |before| + |after|
    && marker[..|before|] == before && marker[|marker| - |after|..] == after
    && var numeral := marker[|before|..|marker| - |after|];
       Value(numeral) == count && IsGrouped(numeral)
  }

  lemma ElisionReports(count: nat)
    ensures Reports(Elision(count), count)
  {
    var before, numeral, after := "\n\U{2026} ", Grouped(count), " chars elided \U{2026}\n";
    var marker := before + numeral + after;
    GroupedValue(count);
    GroupedForm(count);
    assert marker[|before|..|marker| - |after|] == numeral;
    assert marker[|marker| - |after|..] == after;
  }

  lemma MarkedShows(text: string, head: nat, tail: nat)
    requires head < tail <= |text|
    ensures Shows(text, Marked(text, head, tail), HeadAndTail, head, tail)
  {
    var marker, shown := Elision(tail - head), Marked(text, head, tail);
    ElisionReports(tail - head);
    assert shown[head..|shown| - (|text| - tail)] == marker;
    assert shown[|shown| - (|text| - tail)..] == text[tail..];
  }

  /** `shown` is the text, a prefix of it, or a prefix and a suffix around a marker whose count
      is exactly what is missing; `shape` says which. */
  predicate Shows(text: string, shown: string, shape: Shape, head: nat, tail: nat) {
    && head <= tail <= |text|
    && match shape {
         case Head => shown == text[..head]
         case HeadAndTail =>
           shown == text
           || (&& head < tail && |shown| >= head + (|text| - tail)
               && shown[..head] == text[..head] && shown[|shown| - (|text| - tail)..] == text[tail..]
               && Reports(shown[head..|shown| - (|text| - tail)], tail - head))
       }
  }

  lemma MarkedFits(text: string, room: nat) returns (head: nat, tail: nat)
    requires room < |text|
    ensures |MarkedCut(text, room)| <= room + ElisionLength(|text|)
    ensures Shows(text, MarkedCut(text, room), HeadAndTail, head, tail)
    ensures room >= 2 * MIN_SIDE_CHARS ==> Balanced(room, head, |text| - tail)
  {
    head, tail := HeadEnd(text, room / 2), TailStart(text, room - room / 2);
    ElisionHasLength(tail - head);
    GroupedGrows(tail - head, |text|);
    MarkedShows(text, head, tail);
  }

  predicate CutsHead(text: string, budget: int, mode: Mode) {
    budget <= 0 || (|text| > budget && (mode == HeadMode || budget - ElisionLength(|text|) < 2 * MIN_SIDE_CHARS))
  }

  /** Within budget, and not needlessly short: a cut keeps at least half of what it may keep at
      its head, and a marked one nearly that at its tail. */
  predicate Fits(text: string, budget: int, preview: (string, Shape), head: nat, tail: nat) {
    && |preview.0| <= Max(budget, 0)
    && Shows(text, preview.0, preview.1, head, tail)
    && (0 < budget < |text| && preview.1 == Head ==> head >= budget / 2)
    && (0 < budget < |text| && preview.1 == HeadAndTail ==>
          Balanced(budget - ElisionLength(|text|), head, |text| - tail))
  }

  predicate Balanced(room: int, head: nat, tail: nat) {
    room >= 2 * MIN_SIDE_CHARS && head >= room / 2 / 2 && tail >= (room - room / 2) - (room - room / 2) / 2
  }

  lemma HeadPreview(text: string, budget: int, mode: Mode) returns (head: nat)
    requires CutsHead(text, budget, mode)
    ensures Fits(text, budget, Truncate(text, budget, mode), head, |text|)
  {
    head := if budget <= 0 then 0 else HeadEnd(text, budget);
    assert Truncate(text, budget, mode) == (text[..head], Head);
  }

  lemma MarkedPreview(text: string, budget: int, mode: Mode) returns (head: nat, tail: nat)
    requires !CutsHead(text, budget, mode) && |text| > budget
    ensures Fits(text, budget, Truncate(text, budget, mode), head, tail)
  {
    var room := RoomToMark(text, budget, mode);
    head, tail := MarkedFits(text, room);
    MarkedFitsBudget(text, budget, MarkedCut(text, room), head, tail);
  }

  lemma RoomToMark(text: string, budget: int, mode: Mode) returns (room: nat)
    requires !CutsHead(text, budget, mode) && |text| > budget
    ensures 2 * MIN_SIDE_CHARS <= room == budget - ElisionLength(|text|) && budget < |text|
    ensures Truncate(text, budget, mode) == (MarkedCut(text, room), HeadAndTail)
  {
    room := budget - ElisionLength(|text|);
  }

  lemma MarkedFitsBudget(text: string, budget: nat, shown: string, head: nat, tail: nat)
    requires |shown| <= budget && Shows(text, shown, HeadAndTail, head, tail)
    requires Balanced(budget - ElisionLength(|text|), head, |text| - tail)
    ensures Fits(text, budget, (shown, HeadAndTail), head, tail)
  {}

  /** A preview fits its budget and shows what its shape says. */
  lemma PreviewFits(text: string, budget: int, mode: Mode) returns (head: nat, tail: nat)
    ensures Fits(text, budget, Truncate(text, budget, mode), head, tail)
    ensures 0 < budget && |text| <= budget ==> Truncate(text, budget, mode) == (text, HeadAndTail)
    ensures Truncate(text, budget, mode).1 == Head <==>
            || budget <= 0
            || (|text| > budget && (mode == HeadMode || budget - 19 - |Grouped(|text|)| < 2 * MIN_SIDE_CHARS))
  {
    if CutsHead(text, budget, mode) {
      head := HeadPreview(text, budget, mode);
      tail := |text|;
    } else if |text| > budget {
      head, tail := MarkedPreview(text, budget, mode);
    } else {
      head, tail := 0, |text|;
    }
  }

  lemma PreviewLength(text: string, budget: int, mode: Mode)
    ensures |Truncate(text, budget, mode).0| <= Max(budget, 0)
  {
    var head, tail := PreviewFits(text, budget, mode);
  }

  // ---- Preview and footer in one budget ----

  /** The recovery footer, from the saved path, the full length, a note and the shape shown. */
  type Wording = (string, nat, string, Shape) -> string

  /** Room for the longest footer. */
  function Reserve(footer: Wording, ref: string, fullLen: nat, note: string): nat {
    Max(|footer(ref, fullLen, note, Head)|, |footer(ref, fullLen, note, HeadAndTail)|)
  }

  function BudgetedPreview(footer: Wording, body: string, cap: int, ref: string, fullLen: Option<nat>, note: string,
      mode: Mode): string {
    var total := if fullLen.Some? then fullLen.value else |body|;
    var budget := Max(cap - Reserve(footer, ref, total, note), MIN_PREVIEW_CHARS);
    if budget >= |body| && total <= |body| then body
    else
      var preview := Truncate(body, budget, mode);
      var composed := preview.0 + footer(ref, total, note, preview.1);
      if |composed| >= |body| && total <= |body| then body else composed
  }

  /** Never longer than the body, nor than the larger of the cap and a minimal preview. */
  lemma BudgetedPreviewFits(footer: Wording, body: string, cap: int, ref: string, note: string, mode: Mode)
    ensures var r := BudgetedPreview(footer, body, cap, ref, None, note, mode);
            |r| <= |body| && |r| <= Max(cap, MIN_PREVIEW_CHARS + Reserve(footer, ref, |body|, note))
  {
    var reserve := Reserve(footer, ref, |body|, note);
    var budget := Max(cap - reserve, MIN_PREVIEW_CHARS);
    PreviewLength(body, budget, mode);
    var preview := Truncate(body, budget, mode);
    match preview.1 case Head => case HeadAndTail =>
  }

  /** With the length of a longer original given, only the preview is bounded by the cap. */
  lemma LongOriginalPreviewFits(footer: Wording, body: string, cap: int, ref: string, fullLen: nat, note: string,
      mode: Mode)
    requires fullLen > |body|
    ensures |BudgetedPreview(footer, body, cap, ref, Some(fullLen), note, mode)|
            <= Max(cap, MIN_PREVIEW_CHARS + Reserve(footer, ref, fullLen, note))
  {
    var reserve := Reserve(footer, ref, fullLen, note);
    var budget := Max(cap - reserve, MIN_PREVIEW_CHARS);
    PreviewLength(body, budget, mode);
    var preview := Truncate(body, budget, mode);
    match preview.1 case Head => case HeadAndTail =>
  }

  /** The result is the body, or a preview of at least the minimal budget with its footer. */
  lemma BudgetedPreviewShows(footer: Wording, body: string, cap: int, ref: string, fullLen: Option<nat>, note: string,
      mode: Mode)
    returns (budget: nat, head: nat, tail: nat)
    ensures var total := if fullLen.Some? then fullLen.value else |body|;
            var r := BudgetedPreview(footer, body, cap, ref, fullLen, note, mode);
            var preview := Truncate(body, budget, mode);
            var longest := Max(|footer(ref, total, note, Head)|, |footer(ref, total, note, HeadAndTail)|);
            && budget == Max(cap - longest, MIN_PREVIEW_CHARS)
            && (r == body || (r == preview.0 + footer(ref, total, note, preview.1)
                              && Fits(body, budget, preview, head, tail)))
            && (|body| <= budget && total <= |body| ==> r == body)
            && (total > |body| ==> r == preview.0 + footer(ref, total, note, preview.1))
  {
    var total := if fullLen.Some? then fullLen.value else |body|;
    budget := Max(cap - Reserve(footer, ref, total, note), MIN_PREVIEW_CHARS);
    head, tail := PreviewFits(body, budget, mode);
  }

  // ---- The aggregate budget ----

  function Total(results: seq<string>): nat {
    if results == [] then 0 else |results[0]| + Total(results[1..])
  }

  lemma {:induction false} TotalUpdate(results: seq<string>, i: nat, r: string)
    requires i < |results|
    ensures Total(results[i := r]) == Total(results) - |results[i]| + |r|
    decreases |results|
  {
    if i > 0 {
      assert results[i := r][1..] == results[1..][i - 1 := r];
      TotalUpdate(results[1..], i - 1, r);
    } else {
      assert results[i := r][1..] == results[1..];
    }
  }

  lemma {:induction false} TotalBound(results: seq<string>, bound: nat)
    requires forall i :: 0 <= i < |results| ==> |results[i]| <= bound
    ensures Total(results) <= bound * |results|
  {
    if results != [] {
      TotalBound(results[1..], bound);
      assert bound * |results| == bound + bound * |results[1..]|;
    }
  }

  /** Index `k` after every index whose result is at least as long. */
  function PlaceIndex(results: seq<string>, order: seq<nat>, k: nat): seq<nat>
    requires k < |results| && forall p :: 0 <= p < |order| ==> order[p] < |results|
  {
    if order == [] then [k]
    else if |results[order[0]]| >= |results[k]| then [order[0]] + PlaceIndex(results, order[1..], k)
    else [k] + order
  }

  /** The first `n` indices, each once, longest result first. */
  predicate Ordered(results: seq<string>, order: seq<nat>, n: nat) {
    && n <= |results| && |order| == n
    && (forall p :: 0 <= p < n ==> order[p] < n)
    && (forall p, q :: 0 <= p < q < n ==> order[p] != order[q] && |results[order[p]]| >= |results[order[q]]|)
  }

  /** Earlier ones first among equals. */
  predicate Stable(results: seq<string>, order: seq<nat>)
    requires forall p :: 0 <= p < |order| ==> order[p] < |results|
  {
    forall p, q :: 0 <= p < q < |order| && |results[order[p]]| == |results[order[q]]| ==> order[p] < order[q]
  }

  lemma {:induction false} PlaceIndexAt(results: seq<string>, order: seq<nat>, k: nat) returns (at: nat)
    requires k < |results| && forall p :: 0 <= p < |order| ==> order[p] < |results|
    requires forall p, q :: 0 <= p < q < |order| ==> |results[order[p]]| >= |results[order[q]]|
    ensures at <= |order| && PlaceIndex(results, order, k) == order[..at] + [k] + order[at..]
    ensures forall p :: 0 <= p < at ==> |results[order[p]]| >= |results[k]|
    ensures forall p :: at <= p < |order| ==> |results[order[p]]| < |results[k]|
    decreases |order|
  {
    if order == [] || |results[order[0]]| < |results[k]| {
      at := 0;
    } else {
      var rest := PlaceIndexAt(results, order[1..], k);
      at := rest + 1;
      assert order[..at] == [order[0]] + order[1..][..rest] && order[at..] == order[1..][rest..];
    }
  }

  method SortByLength(results: seq<string>) returns (order: seq<nat>)
    ensures Ordered(results, order, |results|) && Stable(results, order)
  {
    order := [];
    for k := 0 to |results|
      invariant Ordered(results, order, k) && Stable(results, order)
    {
      ghost var at := PlaceIndexAt(results, order, k);
      var placed := PlaceIndex(results, order, k);
      PlacedIsOrdered(results, order, k, at);
      PlacedIsStable(results, order, k, at);
      order := placed;
    }
  }

  lemma PlacedIsStable(results: seq<string>, order: seq<nat>, k: nat, at: nat)
    requires k < |results| && Ordered(results, order, k) && Stable(results, order) && at <= k
    requires forall p :: at <= p < |order| ==> |results[order[p]]| < |results[k]|
    ensures forall p :: 0 <= p <= k ==> (order[..at] + [k] + order[at..])[p] < |results|
    ensures Stable(results, order[..at] + [k] + order[at..])
  {
    var placed := order[..at] + [k] + order[at..];
    forall p, q | 0 <= p < q < k + 1 && |results[placed[p]]| == |results[placed[q]]| ensures placed[p] < placed[q] {
      assert p < at ==> placed[p] == order[p];
      assert p > at ==> placed[p] == order[p - 1];
      assert q < at ==> placed[q] == order[q];
      assert q > at ==> placed[q] == order[q - 1];
    }
  }

  lemma PlacedIsOrdered(results: seq<string>, order: seq<nat>, k: nat, at: nat)
    requires k < |results| && Ordered(results, order, k) && at <= k
    requires forall p :: 0 <= p < at ==> |results[order[p]]| >= |results[k]|
    requires forall p :: at <= p < |order| ==> |results[order[p]]| < |results[k]|
    ensures Ordered(results, order[..at] + [k] + order[at..], k + 1)
  {
    var placed := order[..at] + [k] + order[at..];
    forall p, q | 0 <= p < q < k + 1
      ensures placed[p] != placed[q] && |results[placed[p]]| >= |results[placed[q]]|
    {
      assert p < at ==> placed[p] == order[p];
      assert p > at ==> placed[p] == order[p - 1];
      assert q < at ==> placed[q] == order[q];
      assert q > at ==> placed[q] == order[q - 1];
    }
  }

  const NOTE := "Cut further to fit the per-turn tool-result budget."

  /** No footer takes more than the aggregate floor leaves beside a minimal preview. */
  predicate ShortFooters(footer: Wording, results: seq<string>, refs: seq<string>)
    requires |refs| == |results|
  {
    forall i :: 0 <= i < |results| ==>
                  MIN_PREVIEW_CHARS + Reserve(footer, refs[i], |results[i]|, NOTE) <= MIN_AGGREGATE_KEEP
  }

  /** Each result as it was or as a bounded preview; never longer. */
  predicate Cut(results: seq<string>, adjusted: seq<string>) {
    |adjusted| == |results| && forall i :: 0 <= i < |results| ==> |adjusted[i]| <= |results[i]|
  }

  /** A result is cut only if every longer one was. */
  predicate LongestCut(results: seq<string>, adjusted: seq<string>)
    requires |adjusted| == |results|
  {
    forall i, j :: 0 <= i < |results| && 0 <= j < |results| ==>
                     adjusted[j] != results[j] && |results[i]| > |results[j]| ==> |adjusted[i]| < |results[i]|
  }

  /** After the first `done` indices of `order`: all of them shortened, or too short to be. */
  predicate Progress(footer: Wording, results: seq<string>, adjusted: seq<string>, order: seq<nat>, done: nat,
      refs: seq<string>)
    requires |refs| == |results| && Ordered(results, order, |results|) && done <= |results|
  {
    && Cut(results, adjusted)
    && (forall p :: done <= p < |results| ==> adjusted[order[p]] == results[order[p]])
    && (forall p :: 0 <= p < done && |results[order[p]]| <= MIN_AGGREGATE_KEEP
         ==> adjusted[order[p]] == results[order[p]])
    && (ShortFooters(footer, results, refs) ==>
          forall p :: 0 <= p < done && |results[order[p]]| > MIN_AGGREGATE_KEEP
              ==> |adjusted[order[p]]| < |results[order[p]]|)
  }

  /** What the loop still owes: the budget is met, or everything processed is down to the floor. */
  predicate Floored(results: seq<string>, adjusted: seq<string>, order: seq<nat>, done: nat)
    requires |adjusted| == |results| && Ordered(results, order, |results|) && done <= |results|
  {
    forall p :: 0 <= p < done ==> |adjusted[order[p]]| <= MIN_AGGREGATE_KEEP
  }

  lemma ProgressStep(footer: Wording, results: seq<string>, adjusted: seq<string>, order: seq<nat>, done: nat,
      refs: seq<string>, r: string)
    requires |refs| == |results| && Ordered(results, order, |results|) && done < |results|
    requires Progress(footer, results, adjusted, order, done, refs)
    requires var body := results[order[done]];
             && |r| <= |body| && |body| > MIN_AGGREGATE_KEEP
             && (ShortFooters(footer, results, refs) ==> |r| < |body|)
    ensures Progress(footer, results, adjusted[order[done] := r], order, done + 1, refs)
  {
    var next := adjusted[order[done] := r];
    assert forall p :: 0 <= p < |results| && p != done ==> order[p] != order[done];
    assert forall p :: 0 <= p < |results| && p != done ==> next[order[p]] == adjusted[order[p]];
  }

  lemma FlooredStep(results: seq<string>, adjusted: seq<string>, order: seq<nat>, done: nat, r: string)
    requires |adjusted| == |results| && Ordered(results, order, |results|) && done < |results|
    requires Floored(results, adjusted, order, done) && |r| <= MIN_AGGREGATE_KEEP
    ensures Floored(results, adjusted[order[done] := r], order, done + 1)
  {}

  function Below(n: nat): set<nat> { if n == 0 then {} else Below(n - 1) + {n - 1} }

  lemma {:induction false} BelowCount(n: nat)
    ensures |Below(n)| == n && forall x: nat :: x in Below(n) <==> x < n
  {
    if n > 0 {
      BelowCount(n - 1);
    }
  }

  function Elems<T>(s: seq<T>): set<T> { set x | x in s }

  lemma {:induction false} DistinctCount<T>(s: seq<T>)
    requires forall p, q :: 0 <= p < q < |s| ==> s[p] != s[q]
    ensures |Elems(s)| == |s|
  {
    if s == [] {
      assert Elems(s) == {};
    } else {
      var init, last := s[..|s| - 1], s[|s| - 1];
      DistinctCount(init);
      assert s == init + [last];
      assert Elems(s) == Elems(init) + {last};
      assert last !in Elems(init);
    }
  }

  lemma StrictlyFewer<T>(a: set<T>, b: set<T>)
    requires a < b
    ensures |a| < |b|
  {
    assert b == a + (b - a);
    assert |b| == |a| + |b - a|;
  }

  /** Every index is somewhere in the order. */
  lemma OrderCovers(order: seq<nat>, n: nat, i: nat) returns (p: nat)
    requires |order| == n && i < n && forall p :: 0 <= p < n ==> order[p] < n
    requires forall p, q :: 0 <= p < q < n ==> order[p] != order[q]
    ensures p < n && order[p] == i
  {
    DistinctCount(order);
    BelowCount(n);
    assert Elems(order) <= Below(n);
    if i !in Elems(order) {
      assert i in Below(n);
      StrictlyFewer(Elems(order), Below(n));
    }
    p := PositionOf(order, i);
  }

  lemma PositionOf<T>(s: seq<T>, x: T) returns (p: nat)
    requires x in Elems(s)
    ensures p < |s| && s[p] == x
  {
    p :| p < |s| && s[p] == x;
  }

  ghost predicate PreviewOf(footer: Wording, body: string, r: string, ref: string, mode: Mode) {
    exists cap :: cap >= MIN_AGGREGATE_KEEP && r == BudgetedPreview(footer, body, cap, ref, None, NOTE, mode)
  }

  /** Every changed result is a bounded preview of its body, which was handed to the store. */
  ghost predicate Traced(footer: Wording, results: seq<string>, adjusted: seq<string>, refs: seq<string>,
      written: seq<nat>, mode: Mode)
    requires |results| == |adjusted| == |refs|
  {
    forall i :: 0 <= i < |results| && adjusted[i] != results[i] ==>
                  i in written && PreviewOf(footer, results[i], adjusted[i], refs[i], mode)
  }

  lemma TracedStep(footer: Wording, results: seq<string>, adjusted: seq<string>, refs: seq<string>, written: seq<nat>,
      mode: Mode, idx: nat, r: string)
    requires |results| == |adjusted| == |refs| && idx < |results|
    requires Traced(footer, results, adjusted, refs, written, mode)
             && PreviewOf(footer, results[idx], r, refs[idx], mode)
    ensures Traced(footer, results, adjusted[idx := r], refs, written + [idx], mode)
  {}

  /** One result cut to `cap`. */
  method CutOne(footer: Wording, body: string, cap: int, ref: string, mode: Mode) returns (r: string)
    requires cap >= MIN_AGGREGATE_KEEP
    ensures |r| <= |body| && |r| <= Max(cap, MIN_PREVIEW_CHARS + Reserve(footer, ref, |body|, NOTE))
    ensures PreviewOf(footer, body, r, ref, mode)
  {
    r := BudgetedPreview(footer, body, cap, ref, None, NOTE, mode);
    BudgetedPreviewFits(footer, body, cap, ref, NOTE, mode);
  }

  /**
   The aggregate budget over one turn's results. `refs[i]` is where the store saved result
   `i` when asked ("" when it could not); `written` lists the bodies handed to the store.
   */
  method EnforceAggregateBudget(footer: Wording, results: seq<string>, refs: seq<string>, cap: int, mode: Mode)
    returns (adjusted: seq<string>, written: seq<nat>)
    requires |refs| == |results|
    ensures Cut(results, adjusted)
    ensures cap <= 0 || Total(results) <= cap ==> adjusted == results
    ensures cap > 0 && ShortFooters(footer, results, refs)
            ==> Total(adjusted) <= Max(cap, MIN_AGGREGATE_KEEP * |results|)
    ensures Traced(footer, results, adjusted, refs, written, mode)
    ensures ShortFooters(footer, results, refs) ==> LongestCut(results, adjusted)
  {
    var total: int := Total(results);
    adjusted, written := results, [];
    if cap <= 0 || total <= cap {
      return;
    }
    var order := SortByLength(results);
    var done := 0;
    while done < |order|
      invariant done <= |order|
      invariant total == Total(adjusted)
      invariant Progress(footer, results, adjusted, order, done, refs)
      invariant ShortFooters(footer, results, refs) ==> total <= cap || Floored(results, adjusted, order, done)
      invariant Traced(footer, results, adjusted, refs, written, mode)
    {
      if total <= cap {
        break;
      }
      var idx := order[done];
      var body := results[idx];
      var resultCap := Max(MIN_AGGREGATE_KEEP, |body| - (total - cap));
      if resultCap < |body| {
        assert |body| >= SPILL_MIN_CHARS;  // so a body that is cut is always saved first
        var replacement := CutOne(footer, body, resultCap, refs[idx], mode);
        TracedStep(footer, results, adjusted, refs, written, mode, idx, replacement);
        written := written + [idx];
        assert adjusted[idx] == body;
        TotalUpdate(adjusted, idx, replacement);
        ProgressStep(footer, results, adjusted, order, done, refs, replacement);
        if ShortFooters(footer, results, refs) && |replacement| <= MIN_AGGREGATE_KEEP {
          FlooredStep(results, adjusted, order, done, replacement);
        }
        total := total - (|body| - |replacement|);
        adjusted := adjusted[idx := replacement];
      }
      done := done + 1;
    }
    AllBounded(footer, results, adjusted, order, done, refs, cap);
    LongestFirst(footer, results, adjusted, order, done, refs);
  }

  lemma AllBounded(footer: Wording, results: seq<string>, adjusted: seq<string>, order: seq<nat>, done: nat,
      refs: seq<string>, cap: int)
    requires |refs| == |results| && Ordered(results, order, |results|) && done <= |results| && |adjusted| == |results|
    requires done == |results| || Total(adjusted) <= cap
    requires ShortFooters(footer, results, refs) ==> Total(adjusted) <= cap || Floored(results, adjusted, order, done)
    ensures ShortFooters(footer, results, refs) ==> Total(adjusted) <= Max(cap, MIN_AGGREGATE_KEEP * |results|)
  {
    if ShortFooters(footer, results, refs) && Total(adjusted) > cap {
      FlooredTotal(results, adjusted, order);
    }
  }

  lemma FlooredTotal(results: seq<string>, adjusted: seq<string>, order: seq<nat>)
    requires Ordered(results, order, |results|) && |adjusted| == |results|
    requires Floored(results, adjusted, order, |results|)
    ensures Total(adjusted) <= MIN_AGGREGATE_KEEP * |results|
  {
    forall i | 0 <= i < |adjusted| ensures |adjusted[i]| <= MIN_AGGREGATE_KEEP {
      var p := OrderCovers(order, |results|, i);
    }
    TotalBound(adjusted, MIN_AGGREGATE_KEEP);
  }

  lemma LongestFirst(footer: Wording, results: seq<string>, adjusted: seq<string>, order: seq<nat>, done: nat,
      refs: seq<string>)
    requires |refs| == |results| && Ordered(results, order, |results|) && done <= |results|
    requires Progress(footer, results, adjusted, order, done, refs)
    ensures ShortFooters(footer, results, refs) ==> LongestCut(results, adjusted)
  {
    if ShortFooters(footer, results, refs) {
      forall i, j | 0 <= i < |results| && 0 <= j < |results| && adjusted[j] != results[j] && |results[i]| > |results[j]|
        ensures |adjusted[i]| < |results[i]|
      {
        var p := OrderCovers(order, |results|, i);
        var q := OrderCovers(order, |results|, j);
        assert p < q;
      }
    }
  }
}
