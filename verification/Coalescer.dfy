/** Sorted events folded into semantic steps, with focus noise silently dropped. */
module Coalescer {
  import opened Prelude

  datatype Action =
    AppFocus | WindowChange | FocusChange | Click | TextChange | TypingActivity | Shortcut | Scroll

  datatype StepAction =
    SwitchApp | EditText | TypeText | ScrollView | ClickControl | Focus | UseShortcut | ChangeWindow

  /** `id` is the event's ULID, whose order is the numeric one. */
  datatype Event = Event(
    id: nat, observedAt: int, monotonic: Option<int>, action: Action, bundle: string, appName: Option<string>,
    windowTitle: Option<string>, role: Option<string>, subrole: Option<string>, title: Option<string>,
    identifier: Option<string>, content: Option<string>)

  datatype Step = Step(
    action: StepAction, bundle: string, appName: Option<string>, target: Option<string>,
    role: Option<string>, text: Option<string>, startedAt: int, endedAt: int,
    firstId: nat, lastId: nat, count: nat)

  const TEXT_EDIT_GAP_MS := 10_000
  const TYPING_GAP_MS := 10_000
  const SCROLL_GAP_MS := 3_000
  const FOCUS_NOISE_MS := 1_000
  const CLICK_FOCUS_COLLAPSE_MS := 500

  // --------------------------------------------------------- canonical order

  function Or<T>(value: Option<T>, default: T): T { if value.Some? then value.value else default }

  /** observed_at, then monotonic_ns, then id. */
  predicate Before(a: Event, b: Event) {
    if a.observedAt != b.observedAt then a.observedAt < b.observedAt
    else if Or(a.monotonic, 0) != Or(b.monotonic, 0) then Or(a.monotonic, 0) < Or(b.monotonic, 0)
    else a.id < b.id
  }

  predicate Ordered(s: seq<Event>) {
    forall i, j | 0 <= i < j < |s| :: Before(s[i], s[j])
  }

  predicate DistinctIds(s: seq<Event>) {
    forall i, j | 0 <= i < j < |s| :: s[i].id != s[j].id
  }

  function Insert(e: Event, s: seq<Event>): seq<Event> {
    if s == [] || Before(e, s[0]) then [e] + s else [s[0]] + Insert(e, s[1..])
  }

  function Sort(s: seq<Event>): seq<Event> {
    if s == [] then [] else Insert(s[0], Sort(s[1..]))
  }

  lemma {:induction false} InsertIntoOrdered(e: Event, s: seq<Event>)
    requires Ordered(s) && forall x | x in s :: x.id != e.id
    ensures multiset(Insert(e, s)) == multiset(s) + multiset{e}
    ensures Ordered(Insert(e, s))
  {
    if s == [] || Before(e, s[0]) {
    } else {
      assert s == [s[0]] + s[1..];
      InsertIntoOrdered(e, s[1..]);
      var rest := Insert(e, s[1..]);
      forall j | 0 <= j < |rest| ensures Before(s[0], rest[j]) {
        assert rest[j] in multiset(rest);
        assert rest[j] == e || rest[j] in s[1..];
      }
    }
  }

  lemma SameMembersDistinct(s: seq<Event>, r: seq<Event>)
    requires DistinctIds(s) && multiset(r) == multiset(s) && Ordered(r)
    ensures DistinctIds(r)
  {
    forall i, j | 0 <= i < j < |r| ensures r[i].id != r[j].id {
      assert Before(r[i], r[j]);
      assert r[i] in multiset(s) && r[j] in multiset(s);
    }
  }

  lemma {:induction false} SortOrders(s: seq<Event>)
    requires DistinctIds(s)
    ensures multiset(Sort(s)) == multiset(s) && Ordered(Sort(s))
    ensures DistinctIds(Sort(s)) && |Sort(s)| == |s|
  {
    if s != [] {
      assert s == [s[0]] + s[1..];
      SortOrders(s[1..]);
      forall x | x in Sort(s[1..]) ensures x.id != s[0].id {
        assert x in multiset(s[1..]);
      }
      InsertIntoOrdered(s[0], Sort(s[1..]));
      SameMembersDistinct(s, Sort(s));
    }
    assert |Sort(s)| == |multiset(Sort(s))| == |s|;
  }

  lemma FirstIsLeast(s: seq<Event>, i: nat)
    requires Ordered(s) && i < |s|
    ensures s[i] == s[0] || Before(s[0], s[i])
  {
  }

  lemma SameLeast(r: seq<Event>, s: seq<Event>)
    requires Ordered(r) && Ordered(s) && multiset(r) == multiset(s) && r != [] && s != []
    ensures r[0] == s[0]
  {
    assert r[0] in multiset(s) && s[0] in multiset(r);
    var i :| 0 <= i < |s| && s[i] == r[0];
    var j :| 0 <= j < |r| && r[j] == s[0];
    FirstIsLeast(s, i);
    FirstIsLeast(r, j);
  }

  lemma {:induction false} OrderedIsUnique(r: seq<Event>, s: seq<Event>)
    requires Ordered(r) && Ordered(s) && multiset(r) == multiset(s)
    ensures r == s
  {
    assert |r| == |multiset(r)| == |s|;
    if r != [] {
      SameLeast(r, s);
      var r', s' := r[1..], s[1..];
      assert r == [r[0]] + r' && s == [r[0]] + s';
      assert multiset(r') == multiset(r) - multiset{r[0]};
      assert multiset(s') == multiset(s) - multiset{r[0]};
      OrderedIsUnique(r', s');
    }
  }

  // ------------------------------------------------------------- the rules

  /** A step while it may still absorb events. */
  datatype OpenStep = OpenStep(
    step: Step, windowTitle: Option<string>, identifier: Option<string>, targetKey: string,
    lastObservedAt: int, lastAction: Action)

  function TargetKey(e: Event): string {
    Or(e.role, "") + "|" + Or(e.subrole, "") + "|" + Or(e.title, "") + "|" + Or(e.identifier, "")
  }

  function TargetString(e: Event): Option<string> {
    if e.title.Some? then e.title else if e.identifier.Some? then e.identifier else e.role
  }

  function NewStep(e: Event, action: StepAction): OpenStep {
    OpenStep(
      Step(action, e.bundle, e.appName, TargetString(e), e.role, if action.EditText? then e.content else None,
           e.observedAt, e.observedAt, e.id, e.id, 1),
      e.windowTitle, e.identifier, TargetKey(e), e.observedAt, e.action)
  }

  function Extended(o: OpenStep, e: Event): OpenStep {
    o.(step := o.step.(endedAt := e.observedAt, lastId := e.id, count := o.step.count + 1),
       lastObservedAt := e.observedAt)
  }

  datatype Disposition = Start(action: StepAction) | Merge | Drop

  function StepActionOf(a: Action): StepAction {
    match a
    case AppFocus => SwitchApp
    case WindowChange => ChangeWindow
    case FocusChange => Focus
    case Click => ClickControl
    case TextChange => EditText
    case TypingActivity => TypeText
    case Shortcut => UseShortcut
    case Scroll => ScrollView
  }

  /** No more than `bound` ms after the last event of a step of the same app; never backwards. */
  predicate Soon(o: OpenStep, e: Event, bound: int) {
    o.step.bundle == e.bundle && 0 <= e.observedAt - o.lastObservedAt <= bound
  }

  /** What becomes of `e` when `o` is the last step so far. */
  function Rule(o: OpenStep, e: Event): Disposition {
    var merges := match e.action
      case TextChange =>
        o.step.action.EditText? && o.windowTitle == e.windowTitle && o.identifier == e.identifier
        && Soon(o, e, TEXT_EDIT_GAP_MS)
      case TypingActivity =>
        o.step.action.TypeText? && o.lastAction.TypingActivity? && Soon(o, e, TYPING_GAP_MS)
      case Scroll =>
        o.step.action.ScrollView? && o.windowTitle == e.windowTitle && Soon(o, e, SCROLL_GAP_MS)
      case FocusChange =>
        o.step.action.ClickControl? && o.targetKey == TargetKey(e) && Soon(o, e, CLICK_FOCUS_COLLAPSE_MS)
      case _ => false;
    var noise := e.action.FocusChange? && o.step.action.Focus? && o.targetKey == TargetKey(e)
              && Soon(o, e, FOCUS_NOISE_MS);
    if merges then Merge else if noise then Drop else Start(StepActionOf(e.action))
  }

  function Decide(steps: seq<OpenStep>, e: Event): Disposition {
    if steps == [] then Start(StepActionOf(e.action)) else Rule(steps[|steps| - 1], e)
  }

  /** A merged event; the last content seen wins as the text of an edit. */
  function Absorbed(o: OpenStep, e: Event): OpenStep {
    var longer := Extended(o, e);
    if e.action.TextChange? && e.content.Some? then longer.(step := longer.step.(text := e.content)) else longer
  }

  function Fold(steps: seq<OpenStep>, e: Event): seq<OpenStep> {
    match Decide(steps, e)
    case Start(action) => steps + [NewStep(e, action)]
    case Merge => if steps == [] then [] else steps[..|steps| - 1] + [Absorbed(steps[|steps| - 1], e)]
    case Drop => steps
  }

  function Folded(events: seq<Event>): seq<OpenStep> {
    if events == [] then [] else Fold(Folded(events[..|events| - 1]), events[|events| - 1])
  }

  function Public(steps: seq<OpenStep>): seq<Step> {
    seq(|steps|, k requires 0 <= k < |steps| => steps[k].step)
  }

  function Coalesced(sorted: seq<Event>): seq<Step> { Public(Folded(sorted)) }

  lemma {:induction false} AtMostOnce(a: seq<Event>, e: Event)
    requires DistinctIds(a)
    ensures multiset(a)[e] <= 1
  {
    if a != [] {
      assert a == [a[0]] + a[1..];
      AtMostOnce(a[1..], e);
    }
  }

  lemma OneEach(a: seq<Event>, b: seq<Event>, i: nat, j: nat)
    requires DistinctIds(a) && multiset(a) == multiset(b) && i < j < |b|
    ensures b[i].id != b[j].id
  {
    assert b[i] in multiset(a) && b[j] in multiset(a);
    if b[i] == b[j] {
      assert b == b[..i] + [b[i]] + b[i + 1..j] + [b[j]] + b[j + 1..];
      assert multiset(b)[b[i]] >= 2;
      AtMostOnce(a, b[i]);
    }
  }

  /** The steps depend only on which events are in the batch. */
  lemma CoalescingIgnoresArrival(a: seq<Event>, b: seq<Event>)
    requires DistinctIds(a) && multiset(a) == multiset(b)
    ensures Sort(a) == Sort(b) && Coalesced(Sort(a)) == Coalesced(Sort(b))
  {
    forall i, j | 0 <= i < j < |b| ensures b[i].id != b[j].id {
      OneEach(a, b, i, j);
    }
    SortOrders(a);
    SortOrders(b);
    OrderedIsUnique(Sort(a), Sort(b));
  }

  // ------------------------------------------------------------------- runs

  /** First and last position, in the sorted batch, of the events a step folded. */
  datatype Span = Span(lo: nat, hi: nat)

  function NextSpans(steps: seq<OpenStep>, spans: seq<Span>, e: Event, n: nat): (next: seq<Span>)
    requires |spans| == |steps|
    ensures |next| == |Fold(steps, e)|
  {
    match Decide(steps, e)
    case Start(_) => spans + [Span(n, n)]
    case Merge => if spans == [] then [] else spans[..|spans| - 1] + [Span(spans[|spans| - 1].lo, n)]
    case Drop => spans
  }

  function Spans(events: seq<Event>): (spans: seq<Span>)
    ensures |spans| == |Folded(events)|
  {
    if events == [] then []
    else
      var n := |events| - 1;
      NextSpans(Folded(events[..n]), Spans(events[..n]), events[n], n)
  }

  /** `step` is exactly the run of events from `span.lo` to `span.hi`, all of one app. */
  predicate IsRun(events: seq<Event>, step: Step, span: Span) {
    && span.lo <= span.hi < |events|
    && step.firstId == events[span.lo].id && step.lastId == events[span.hi].id
    && step.startedAt == events[span.lo].observedAt && step.endedAt == events[span.hi].observedAt
    && step.count == span.hi - span.lo + 1
    && forall i | span.lo <= i <= span.hi :: events[i].bundle == step.bundle
  }

  /** The runs follow one another, and the first event always starts one. */
  predicate Spanned(events: seq<Event>, steps: seq<Step>, spans: seq<Span>) {
    && |spans| == |steps|
    && (forall k | 0 <= k < |steps| :: IsRun(events, steps[k], spans[k]))
    && (forall k | 0 <= k < |spans| - 1 :: spans[k].hi < spans[k + 1].lo)
    && (events != [] ==> spans != [] && spans[0].lo == 0)
  }

  predicate Covered(spans: seq<Span>, i: nat) {
    exists k :: 0 <= k < |spans| && spans[k].lo <= i <= spans[k].hi
  }

  ghost predicate DropsAreNoise(events: seq<Event>, spans: seq<Span>) {
    forall i | 0 <= i < |events| && !Covered(spans, i) :: events[i].action.FocusChange?
  }

  /** What the sweep keeps; a step other than a focus ends at the event just seen. */
  ghost predicate Tidy(events: seq<Event>, steps: seq<Step>, spans: seq<Span>) {
    && Spanned(events, steps, spans)
    && DropsAreNoise(events, spans)
    && (events == [] ==> steps == [])
    && (steps != [] && !steps[|steps| - 1].action.Focus? ==> spans[|spans| - 1].hi == |events| - 1)
  }

  lemma RunsStay(events: seq<Event>, e: Event, steps: seq<Step>, spans: seq<Span>)
    requires Spanned(events, steps, spans)
    ensures forall k | 0 <= k < |steps| :: IsRun(events + [e], steps[k], spans[k])
  {
    forall k | 0 <= k < |steps| ensures IsRun(events + [e], steps[k], spans[k]) {
      assert IsRun(events, steps[k], spans[k]);
    }
  }

  lemma CoveredStays(spans: seq<Span>, spans': seq<Span>, i: nat)
    requires |spans| <= |spans'|
    requires forall k | 0 <= k < |spans| :: spans'[k].lo == spans[k].lo && spans[k].hi <= spans'[k].hi
    ensures Covered(spans, i) ==> Covered(spans', i)
  {
    if Covered(spans, i) {
      var k :| 0 <= k < |spans| && spans[k].lo <= i <= spans[k].hi;
      assert spans'[k].lo <= i <= spans'[k].hi;
    }
  }

  lemma NoiseStays(events: seq<Event>, e: Event, spans: seq<Span>, spans': seq<Span>)
    requires DropsAreNoise(events, spans) && |spans| <= |spans'|
    requires forall k | 0 <= k < |spans| :: spans'[k].lo == spans[k].lo && spans[k].hi <= spans'[k].hi
    requires Covered(spans', |events|) || e.action.FocusChange?
    ensures DropsAreNoise(events + [e], spans')
  {
    forall i | 0 <= i < |events + [e]| && !Covered(spans', i) ensures (events + [e])[i].action.FocusChange? {
      CoveredStays(spans, spans', i);
    }
  }

  lemma StartKeepsSpanned(events: seq<Event>, steps: seq<Step>, spans: seq<Span>, e: Event, started: Step)
    requires Spanned(events, steps, spans) && (events == [] ==> steps == [])
    requires IsRun(events + [e], started, Span(|events|, |events|))
    ensures Spanned(events + [e], steps + [started], spans + [Span(|events|, |events|)])
  {
    RunsStay(events, e, steps, spans);
    if steps != [] { assert IsRun(events, steps[|steps| - 1], spans[|steps| - 1]); }
  }

  lemma StartKeepsTidy(events: seq<Event>, steps: seq<Step>, spans: seq<Span>, e: Event, started: Step)
    requires Tidy(events, steps, spans)
    requires IsRun(events + [e], started, Span(|events|, |events|))
    ensures Tidy(events + [e], steps + [started], spans + [Span(|events|, |events|)])
  {
    var spans' := spans + [Span(|events|, |events|)];
    StartKeepsSpanned(events, steps, spans, e, started);
    assert Covered(spans', |events|) by { assert spans'[|spans|].lo <= |events| <= spans'[|spans|].hi; }
    NoiseStays(events, e, spans, spans');
  }

  lemma MergeKeepsSpanned(events: seq<Event>, steps: seq<Step>, spans: seq<Span>, e: Event, merged: Step)
    requires Spanned(events, steps, spans) && steps != []
    requires IsRun(events + [e], merged, Span(spans[|steps| - 1].lo, |events|))
    ensures Spanned(events + [e], steps[..|steps| - 1] + [merged],
                    spans[..|steps| - 1] + [Span(spans[|steps| - 1].lo, |events|)])
  {
    RunsStay(events, e, steps, spans);
  }

  function LastTo(spans: seq<Span>, n: nat): seq<Span>
    requires spans != []
  {
    spans[..|spans| - 1] + [Span(spans[|spans| - 1].lo, n)]
  }

  lemma MergeKeepsNoise(events: seq<Event>, e: Event, spans: seq<Span>)
    requires DropsAreNoise(events, spans) && spans != []
    requires spans[|spans| - 1].lo <= |events| && spans[|spans| - 1].hi <= |events|
    ensures DropsAreNoise(events + [e], LastTo(spans, |events|))
  {
    var spans' := LastTo(spans, |events|);
    assert spans'[|spans| - 1].lo <= |events| <= spans'[|spans| - 1].hi;
    assert Covered(spans', |events|);
    NoiseStays(events, e, spans, spans');
  }

  lemma MergeKeepsTidy(events: seq<Event>, steps: seq<Step>, spans: seq<Span>, e: Event, merged: Step)
    requires Tidy(events, steps, spans) && steps != []
    requires IsRun(events + [e], merged, Span(spans[|steps| - 1].lo, |events|))
    ensures Tidy(events + [e], steps[..|steps| - 1] + [merged], LastTo(spans, |events|))
  {
    MergeKeepsSpanned(events, steps, spans, e, merged);
    assert IsRun(events, steps[|steps| - 1], spans[|steps| - 1]);
    MergeKeepsNoise(events, e, spans);
  }

  lemma DropKeepsTidy(events: seq<Event>, steps: seq<Step>, spans: seq<Span>, e: Event)
    requires Tidy(events, steps, spans) && steps != []
    requires steps[|steps| - 1].action.Focus? && e.action.FocusChange?
    ensures Tidy(events + [e], steps, spans)
  {
    RunsStay(events, e, steps, spans);
    NoiseStays(events, e, spans, spans);
  }

  /** Only a step of the same app that is not a focus absorbs; only a focus step drops. */
  lemma RuleFacts(o: OpenStep, e: Event)
    ensures Rule(o, e).Merge? ==> o.step.bundle == e.bundle && !o.step.action.Focus?
    ensures Rule(o, e).Drop? ==> o.step.action.Focus? && e.action.FocusChange?
  {
  }

  lemma MergedRun(events: seq<Event>, o: OpenStep, span: Span, e: Event)
    requires IsRun(events, o.step, span) && span.hi == |events| - 1 && o.step.bundle == e.bundle
    ensures IsRun(events + [e], Absorbed(o, e).step, Span(span.lo, |events|))
  {
  }

  lemma AbsorbingKeepsTidy(events: seq<Event>, open: seq<OpenStep>, spans: seq<Span>, e: Event)
    requires Tidy(events, Public(open), spans) && open != []
    requires open[|open| - 1].step.bundle == e.bundle && !open[|open| - 1].step.action.Focus?
    ensures var last := |open| - 1;
            Tidy(events + [e], Public(open[..last] + [Absorbed(open[last], e)]),
                 spans[..last] + [Span(spans[last].lo, |events|)])
  {
    var last, steps := |open| - 1, Public(open);
    var merged := Absorbed(open[last], e);
    assert IsRun(events, steps[last], spans[last]);
    MergedRun(events, open[last], spans[last], e);
    MergeKeepsTidy(events, steps, spans, e, merged.step);
    assert Public(open[..last] + [merged]) == steps[..last] + [merged.step];
  }

  lemma StartingKeepsTidy(events: seq<Event>, open: seq<OpenStep>, spans: seq<Span>, e: Event)
    requires Tidy(events, Public(open), spans) && Decide(open, e).Start?
    ensures Tidy(events + [e], Public(Fold(open, e)), NextSpans(open, spans, e, |events|))
  {
    var started := NewStep(e, Decide(open, e).action);
    StartKeepsTidy(events, Public(open), spans, e, started.step);
    assert Public(open + [started]) == Public(open) + [started.step];
  }

  lemma MergingKeepsTidy(events: seq<Event>, open: seq<OpenStep>, spans: seq<Span>, e: Event)
    requires Tidy(events, Public(open), spans) && Decide(open, e).Merge?
    ensures Tidy(events + [e], Public(Fold(open, e)), NextSpans(open, spans, e, |events|))
  {
    RuleFacts(open[|open| - 1], e);
    AbsorbingKeepsTidy(events, open, spans, e);
  }

  lemma DroppingKeepsTidy(events: seq<Event>, open: seq<OpenStep>, spans: seq<Span>, e: Event)
    requires Tidy(events, Public(open), spans) && Decide(open, e).Drop?
    ensures Tidy(events + [e], Public(Fold(open, e)), NextSpans(open, spans, e, |events|))
  {
    RuleFacts(open[|open| - 1], e);
    DropKeepsTidy(events, Public(open), spans, e);
  }

  lemma FoldKeepsTidy(events: seq<Event>, open: seq<OpenStep>, spans: seq<Span>, e: Event)
    requires Tidy(events, Public(open), spans)
    ensures Tidy(events + [e], Public(Fold(open, e)), NextSpans(open, spans, e, |events|))
  {
    match Decide(open, e)
    case Start(_) => StartingKeepsTidy(events, open, spans, e);
    case Merge => MergingKeepsTidy(events, open, spans, e);
    case Drop => DroppingKeepsTidy(events, open, spans, e);
  }

  lemma OneMoreEvent(events: seq<Event>, e: Event)
    ensures Folded(events + [e]) == Fold(Folded(events), e)
    ensures Spans(events + [e]) == NextSpans(Folded(events), Spans(events), e, |events|)
  {
    assert (events + [e])[..|events|] == events;
  }

  lemma TidyGrows(events: seq<Event>, e: Event, open: seq<OpenStep>, spans: seq<Span>)
    requires open == Folded(events) && spans == Spans(events) && Tidy(events, Public(open), spans)
    ensures Tidy(events + [e], Coalesced(events + [e]), Spans(events + [e]))
  {
    OneMoreEvent(events, e);
    FoldKeepsTidy(events, open, spans, e);
  }

  lemma {:induction false} FoldedIsTidy(events: seq<Event>)
    ensures Tidy(events, Coalesced(events), Spans(events))
  {
    if events != [] {
      var before, e := events[..|events| - 1], events[|events| - 1];
      assert before + [e] == events;
      FoldedIsTidy(before);
      TidyGrows(before, e, Folded(before), Spans(before));
    }
  }

  /**
   * Every step is one contiguous run of one app's events, the runs are in order,
   * the first event is never dropped, and what lies outside the runs is a
   * dropped focus change.
   */
  lemma StepsAreRuns(events: seq<Event>)
    ensures Spanned(events, Coalesced(events), Spans(events))
    ensures DropsAreNoise(events, Spans(events))
  {
    FoldedIsTidy(events);
  }

  /** The rules spelled out, on the last step and the next event. */
  method Sweep(open: seq<OpenStep>, event: Event) returns (next: seq<OpenStep>)
    ensures next == Fold(open, event)
  {
    var last := if |open| > 0 then Some(open[|open| - 1]) else None;
    var sameApp := last.Some? && last.value.step.bundle == event.bundle;
    // A backward event reads as an unbounded gap.
    var gap := if sameApp && event.observedAt >= last.value.lastObservedAt
               then Some(event.observedAt - last.value.lastObservedAt) else None;
    var merged := false;
    match event.action {
      case TextChange =>
        merged := last.Some? && last.value.step.action.EditText? && sameApp
          && last.value.windowTitle == event.windowTitle && last.value.identifier == event.identifier
          && gap.Some? && gap.value <= TEXT_EDIT_GAP_MS;
      case TypingActivity =>
        merged := last.Some? && last.value.step.action.TypeText? && sameApp
          && last.value.lastAction.TypingActivity? && gap.Some? && gap.value <= TYPING_GAP_MS;
      case Scroll =>
        merged := last.Some? && last.value.step.action.ScrollView? && sameApp
          && last.value.windowTitle == event.windowTitle && gap.Some? && gap.value <= SCROLL_GAP_MS;
      case FocusChange =>
        merged := last.Some? && last.value.step.action.ClickControl? && sameApp
          && last.value.targetKey == TargetKey(event) && gap.Some? && gap.value <= CLICK_FOCUS_COLLAPSE_MS;
        if !merged && last.Some? && last.value.step.action.Focus? && sameApp
           && last.value.targetKey == TargetKey(event) && gap.Some? && gap.value <= FOCUS_NOISE_MS {
          return open;
        }
      case _ =>
    }
    if merged {
      var longer := Extended(last.value, event);
      if event.action.TextChange? && event.content.Some? {
        longer := longer.(step := longer.step.(text := event.content));
      }
      next := open[|open| - 1 := longer];
    } else {
      next := open + [NewStep(event, StepActionOf(event.action))];
    }
  }

  /** The defensive sort, then one sweep of the batch. */
  method CoalesceEvents(events: seq<Event>) returns (steps: seq<Step>)
    ensures steps == Coalesced(Sort(events))
  {
    var sorted := Sort(events);
    var open: seq<OpenStep> := [];
    for i := 0 to |sorted|
      invariant open == Folded(sorted[..i])
    {
      assert sorted[..i + 1][..i] == sorted[..i];
      open := Sweep(open, sorted[i]);
    }
    assert sorted[..|sorted|] == sorted;
    steps := Public(open);
  }

  // ---------------------------------------------------------- dropped events

  /** Drops between two runs, tagged with the step they precede. */
  datatype DroppedGroup = DroppedGroup(beforeStep: nat, events: seq<Event>)

  function GapStart(spans: seq<Span>, k: nat): nat
    requires k <= |spans|
  {
    if k == 0 then 0 else spans[k - 1].hi + 1
  }

  function GapEnd(events: seq<Event>, spans: seq<Span>, k: nat): nat
    requires k <= |spans|
  {
    if k < |spans| then spans[k].lo else |events|
  }

  lemma GapBounds(events: seq<Event>, steps: seq<Step>, spans: seq<Span>, k: nat)
    requires Spanned(events, steps, spans) && k <= |spans|
    ensures GapStart(spans, k) <= GapEnd(events, spans, k) <= |events|
  {
    if k < |spans| { assert IsRun(events, steps[k], spans[k]); }
    if k > 0 { assert IsRun(events, steps[k - 1], spans[k - 1]); }
  }

  /** The events dropped right before step `k`, or after the last step. */
  function Gap(events: seq<Event>, steps: seq<Step>, spans: seq<Span>, k: nat): seq<Event>
    requires Spanned(events, steps, spans) && k <= |spans|
  {
    GapBounds(events, steps, spans, k);
    events[GapStart(spans, k)..GapEnd(events, spans, k)]
  }

  function AddGroup(groups: seq<DroppedGroup>, k: nat, events: seq<Event>): seq<DroppedGroup> {
    if events == [] then groups else groups + [DroppedGroup(k, events)]
  }

  /** One group per non-empty gap before step `k`, in order. */
  function Groups(events: seq<Event>, steps: seq<Step>, spans: seq<Span>, k: nat): seq<DroppedGroup>
    requires Spanned(events, steps, spans) && k <= |spans| + 1
  {
    if k == 0 then []
    else AddGroup(Groups(events, steps, spans, k - 1), k - 1, Gap(events, steps, spans, k - 1))
  }

  /** The step's two ids stand at the span's two positions of the batch, in order. */
  predicate Names(sorted: seq<Event>, step: Step, span: Span) {
    span.lo <= span.hi < |sorted| && sorted[span.lo].id == step.firstId && sorted[span.hi].id == step.lastId
  }

  ghost predicate Located(sorted: seq<Event>, step: Step) {
    exists span :: Names(sorted, step, span)
  }

  method IndexOf(sorted: seq<Event>, id: nat) returns (at: Option<nat>)
    ensures at.Some? ==> at.value < |sorted| && sorted[at.value].id == id
    ensures at.None? ==> forall i | 0 <= i < |sorted| :: sorted[i].id != id
  {
    for i := 0 to |sorted|
      invariant forall j | 0 <= j < i :: sorted[j].id != id
    {
      if sorted[i].id == id { return Some(i); }
    }
    at := None;
  }

  /** The positions of each step's first and last event; `None` where some step has none. */
  method LocateSteps(sorted: seq<Event>, steps: seq<Step>) returns (spans: Option<seq<Span>>)
    requires DistinctIds(sorted)
    ensures spans.None? <==> exists k :: 0 <= k < |steps| && !Located(sorted, steps[k])
    ensures spans.Some? ==>
      |spans.value| == |steps| && forall k | 0 <= k < |steps| :: Names(sorted, steps[k], spans.value[k])
  {
    var found: seq<Span> := [];
    for k := 0 to |steps|
      invariant |found| == k
      invariant forall j | 0 <= j < k :: Names(sorted, steps[j], found[j])
    {
      var lo := IndexOf(sorted, steps[k].firstId);
      var hi := IndexOf(sorted, steps[k].lastId);
      assert forall span | Names(sorted, steps[k], span) :: lo == Some(span.lo) && hi == Some(span.hi);
      if lo.None? || hi.None? || hi.value < lo.value {
        assert !Located(sorted, steps[k]);
        return None;
      }
      found := found + [Span(lo.value, hi.value)];
    }
    assert forall k | 0 <= k < |steps| :: Names(sorted, steps[k], found[k]);
    spans := Some(found);
  }

  function StepsCount(steps: seq<Step>): nat {
    if steps == [] then 0 else StepsCount(steps[..|steps| - 1]) + steps[|steps| - 1].count
  }

  /** Gap, run, gap, run, ... up to step `k`: the batch put back together. */
  function Reassembled(events: seq<Event>, steps: seq<Step>, spans: seq<Span>, k: nat): seq<Event>
    requires Spanned(events, steps, spans) && k <= |spans|
  {
    if k == 0 then []
    else
      assert IsRun(events, steps[k - 1], spans[k - 1]);
      Reassembled(events, steps, spans, k - 1) + Gap(events, steps, spans, k - 1)
        + events[spans[k - 1].lo..spans[k - 1].hi + 1]
  }

  lemma JoinSlices<T>(s: seq<T>, a: nat, b: nat, c: nat)
    requires a <= b <= c <= |s|
    ensures s[..a] + s[a..b] + s[b..c] == s[..c]
  {
  }

  lemma {:induction false} ReassembledPrefix(events: seq<Event>, steps: seq<Step>, spans: seq<Span>, k: nat)
    requires Spanned(events, steps, spans) && k <= |spans|
    ensures GapStart(spans, k) <= |events|
    ensures Reassembled(events, steps, spans, k) == events[..GapStart(spans, k)]
  {
    if k > 0 {
      ReassembledPrefix(events, steps, spans, k - 1);
      GapBounds(events, steps, spans, k - 1);
      assert IsRun(events, steps[k - 1], spans[k - 1]);
      JoinSlices(events, GapStart(spans, k - 1), spans[k - 1].lo, spans[k - 1].hi + 1);
    }
  }

  /** Runs and drops together are the whole sorted batch, in order, nothing twice. */
  lemma RunsAndDropsPartition(events: seq<Event>, steps: seq<Step>, spans: seq<Span>)
    requires Spanned(events, steps, spans)
    ensures Reassembled(events, steps, spans, |steps|) + Gap(events, steps, spans, |steps|) == events
  {
    ReassembledPrefix(events, steps, spans, |steps|);
    GapBounds(events, steps, spans, |steps|);
  }

  function DropCount(events: seq<Event>, steps: seq<Step>, spans: seq<Span>, k: nat): nat
    requires Spanned(events, steps, spans) && k <= |spans| + 1
  {
    if k == 0 then 0 else DropCount(events, steps, spans, k - 1) + |Gap(events, steps, spans, k - 1)|
  }

  lemma {:induction false} CountsAddUp(events: seq<Event>, steps: seq<Step>, spans: seq<Span>, k: nat)
    requires Spanned(events, steps, spans) && k <= |spans|
    ensures StepsCount(steps[..k]) + DropCount(events, steps, spans, k) == GapStart(spans, k)
  {
    if k > 0 {
      CountsAddUp(events, steps, spans, k - 1);
      GapBounds(events, steps, spans, k - 1);
      assert IsRun(events, steps[k - 1], spans[k - 1]);
      assert steps[..k][..k - 1] == steps[..k - 1];
    }
  }

  /** The steps' counts and the drops add up to the batch. */
  lemma CountsPartition(events: seq<Event>, steps: seq<Step>, spans: seq<Span>)
    requires Spanned(events, steps, spans)
    ensures StepsCount(steps) + DropCount(events, steps, spans, |steps| + 1) == |events|
  {
    CountsAddUp(events, steps, spans, |steps|);
    assert steps[..|steps|] == steps;
    GapBounds(events, steps, spans, |steps|);
  }

  lemma {:induction false} NoDropsNoGroups(events: seq<Event>, steps: seq<Step>, spans: seq<Span>, k: nat)
    requires Spanned(events, steps, spans) && k <= |spans| + 1
    ensures DropCount(events, steps, spans, k) == 0 ==> Groups(events, steps, spans, k) == []
  {
    if k > 0 { NoDropsNoGroups(events, steps, spans, k - 1); }
  }

  lemma SpansAreUnique(events: seq<Event>, steps: seq<Step>, spans: seq<Span>, found: seq<Span>)
    requires DistinctIds(events) && Spanned(events, steps, spans) && |found| == |steps|
    requires forall k | 0 <= k < |steps| :: Names(events, steps[k], found[k])
    ensures found == spans
  {
    forall k | 0 <= k < |steps| ensures found[k] == spans[k] {
      assert IsRun(events, steps[k], spans[k]) && Names(events, steps[k], found[k]);
    }
  }

  lemma AllFoldedNoGroups(events: seq<Event>, steps: seq<Step>, spans: seq<Span>)
    requires Spanned(events, steps, spans) && StepsCount(steps) == |events|
    ensures Groups(events, steps, spans, |steps| + 1) == []
  {
    CountsPartition(events, steps, spans);
    NoDropsNoGroups(events, steps, spans, |steps| + 1);
  }

  lemma RunsAreLocated(events: seq<Event>, steps: seq<Step>, spans: seq<Span>)
    requires Spanned(events, steps, spans)
    ensures forall k | 0 <= k < |steps| :: Located(events, steps[k])
  {
    forall k | 0 <= k < |steps| ensures Located(events, steps[k]) {
      assert IsRun(events, steps[k], spans[k]);
      assert Names(events, steps[k], spans[k]);
    }
  }

  function Extend(groups: seq<DroppedGroup>, k: nat, e: Event): seq<DroppedGroup> {
    if |groups| > 0 && groups[|groups| - 1].beforeStep == k
    then groups[|groups| - 1 := DroppedGroup(k, groups[|groups| - 1].events + [e])]
    else groups + [DroppedGroup(k, [e])]
  }

  /** The sweep from event `i` on, with `si` runs passed. */
  function SweepFrom(sorted: seq<Event>, spans: seq<Span>, si: nat, i: nat, groups: seq<DroppedGroup>)
      : seq<DroppedGroup>
    requires si <= |spans| && i <= |sorted|
    decreases |spans| - si + |sorted| - i
  {
    if i == |sorted| then groups
    else if si < |spans| && i > spans[si].hi then SweepFrom(sorted, spans, si + 1, i, groups)
    else if si < |spans| && i >= spans[si].lo then SweepFrom(sorted, spans, si, i + 1, groups)
    else SweepFrom(sorted, spans, si, i + 1, Extend(groups, si, sorted[i]))
  }

  /** The part of gap `k` before position `i`. */
  function GapUpTo(events: seq<Event>, steps: seq<Step>, spans: seq<Span>, k: nat, i: nat): seq<Event>
    requires Spanned(events, steps, spans) && k <= |spans| && GapStart(spans, k) <= i <= |events|
  {
    GapBounds(events, steps, spans, k);
    events[GapStart(spans, k)..if i <= GapEnd(events, spans, k) then i else GapEnd(events, spans, k)]
  }

  /** Where the sweep stands: before event `i`, with gaps `0..k` grouped and gap `k` under way. */
  ghost predicate SweepAt(events: seq<Event>, steps: seq<Step>, spans: seq<Span>, k: nat, i: nat,
                          done: seq<DroppedGroup>, gap: seq<Event>)
    requires Spanned(events, steps, spans)
  {
    && k <= |spans| && GapStart(spans, k) <= i <= |events| && (k < |spans| ==> i <= spans[k].hi + 1)
    && done == Groups(events, steps, spans, k) && gap == GapUpTo(events, steps, spans, k, i)
    && forall g | g in done :: g.beforeStep < k
  }

  lemma SweepPassesRun(events: seq<Event>, steps: seq<Step>, spans: seq<Span>, k: nat, i: nat,
                       done: seq<DroppedGroup>, gap: seq<Event>)
    requires Spanned(events, steps, spans)
    requires SweepAt(events, steps, spans, k, i, done, gap) && k < |spans| && i > spans[k].hi
    ensures SweepAt(events, steps, spans, k + 1, i, AddGroup(done, k, gap), [])
  {
    assert IsRun(events, steps[k], spans[k]);
    if k + 1 < |spans| { assert IsRun(events, steps[k + 1], spans[k + 1]); }
  }

  lemma SweepTakesEvent(events: seq<Event>, steps: seq<Step>, spans: seq<Span>, k: nat, i: nat,
                        done: seq<DroppedGroup>, gap: seq<Event>)
    requires Spanned(events, steps, spans)
    requires SweepAt(events, steps, spans, k, i, done, gap) && k <= |spans| && i < |events|
    requires k < |spans| ==> i <= spans[k].hi
    ensures SweepAt(events, steps, spans, k, i + 1, done,
                    if k < |spans| && i >= spans[k].lo then gap else gap + [events[i]])
  {
  }

  lemma RunsLeaveRoom(events: seq<Event>, steps: seq<Step>, spans: seq<Span>, k: nat)
    requires Spanned(events, steps, spans) && k < |spans|
    ensures k + 1 < |spans| ==> spans[k].hi + 1 < |events|
  {
    if k + 1 < |spans| { assert IsRun(events, steps[k + 1], spans[k + 1]); }
  }

  /** At the end of the batch either the last run or the trailing gap was just completed. */
  lemma SweepEnds(events: seq<Event>, steps: seq<Step>, spans: seq<Span>, k: nat,
                  done: seq<DroppedGroup>, gap: seq<Event>)
    requires Spanned(events, steps, spans) && SweepAt(events, steps, spans, k, |events|, done, gap)
    ensures AddGroup(done, k, gap) == Groups(events, steps, spans, |steps| + 1)
  {
    if k < |spans| {
      RunsLeaveRoom(events, steps, spans, k);
      SweepPassesRun(events, steps, spans, k, |events|, done, gap);
    }
  }

  /** Where the sweep stands, with its groups so far and those it is to end with. */
  ghost predicate Sweeping(events: seq<Event>, steps: seq<Step>, spans: seq<Span>, k: nat, i: nat,
                           groups: seq<DroppedGroup>)
    requires Spanned(events, steps, spans)
  {
    exists done, gap :: SweepAt(events, steps, spans, k, i, done, gap) && groups == AddGroup(done, k, gap)
  }

  lemma SweepStarts(events: seq<Event>, steps: seq<Step>, spans: seq<Span>)
    requires Spanned(events, steps, spans)
    ensures Sweeping(events, steps, spans, 0, 0, [])
  {
    assert SweepAt(events, steps, spans, 0, 0, [], []);
  }

  lemma SweepEnd(events: seq<Event>, steps: seq<Step>, spans: seq<Span>, k: nat, groups: seq<DroppedGroup>)
    requires Spanned(events, steps, spans) && Sweeping(events, steps, spans, k, |events|, groups)
    ensures groups == Groups(events, steps, spans, |steps| + 1)
  {
    var done, gap :| SweepAt(events, steps, spans, k, |events|, done, gap) && groups == AddGroup(done, k, gap);
    SweepEnds(events, steps, spans, k, done, gap);
  }

  /** The sweep leaves a run behind it. */
  lemma RunStep(events: seq<Event>, steps: seq<Step>, spans: seq<Span>, k: nat, i: nat, groups: seq<DroppedGroup>)
    requires Spanned(events, steps, spans) && Sweeping(events, steps, spans, k, i, groups)
    requires i < |events| && k < |spans| && i > spans[k].hi
    ensures Sweeping(events, steps, spans, k + 1, i, groups)
  {
    var done, gap :| SweepAt(events, steps, spans, k, i, done, gap) && groups == AddGroup(done, k, gap);
    SweepPassesRun(events, steps, spans, k, i, done, gap);
    assert groups == AddGroup(groups, k + 1, []);
  }

  /** Extending the last group, or opening one, adds an event to the gap under way. */
  lemma GroupGrows(done: seq<DroppedGroup>, k: nat, gap: seq<Event>, e: Event)
    requires forall g | g in done :: g.beforeStep < k
    ensures var groups := AddGroup(done, k, gap);
            AddGroup(done, k, gap + [e]) == Extend(groups, k, e)
  {
    var groups := AddGroup(done, k, gap);
    if gap == [] {
      assert groups != [] ==> groups[|groups| - 1] in done;
      assert gap + [e] == [e];
    } else {
      assert groups[|groups| - 1] == DroppedGroup(k, gap);
    }
  }

  function Taken(spans: seq<Span>, k: nat, i: nat, groups: seq<DroppedGroup>, e: Event): seq<DroppedGroup> {
    if k < |spans| && i >= spans[k].lo then groups else Extend(groups, k, e)
  }

  /** The sweep takes an event, of a run or of a gap. */
  lemma EventStep(events: seq<Event>, steps: seq<Step>, spans: seq<Span>, k: nat, i: nat, groups: seq<DroppedGroup>)
    requires Spanned(events, steps, spans) && Sweeping(events, steps, spans, k, i, groups)
    requires k <= |spans| && i < |events| && (k < |spans| ==> i <= spans[k].hi)
    ensures Sweeping(events, steps, spans, k, i + 1, Taken(spans, k, i, groups, events[i]))
  {
    var done, gap :| SweepAt(events, steps, spans, k, i, done, gap) && groups == AddGroup(done, k, gap);
    var gap' := if k < |spans| && i >= spans[k].lo then gap else gap + [events[i]];
    SweepTakesEvent(events, steps, spans, k, i, done, gap);
    if gap' != gap { GroupGrows(done, k, gap, events[i]); }
    assert Taken(spans, k, i, groups, events[i]) == AddGroup(done, k, gap');
  }

  lemma SweepFromTakes(events: seq<Event>, spans: seq<Span>, k: nat, i: nat,
                       groups: seq<DroppedGroup>, taken: seq<DroppedGroup>)
    requires k <= |spans| && i < |events| && (k < |spans| ==> i <= spans[k].hi)
    requires taken == Taken(spans, k, i, groups, events[i])
    ensures SweepFrom(events, spans, k, i, groups) == SweepFrom(events, spans, k, i + 1, taken)
  {
  }

  lemma {:induction false} SweepFindsGaps(events: seq<Event>, steps: seq<Step>, spans: seq<Span>, k: nat, i: nat,
                                          groups: seq<DroppedGroup>, goal: seq<DroppedGroup>)
    requires Spanned(events, steps, spans) && k <= |spans| && i <= |events|
    requires Sweeping(events, steps, spans, k, i, groups) && goal == Groups(events, steps, spans, |steps| + 1)
    ensures SweepFrom(events, spans, k, i, groups) == goal
    decreases |spans| - k + |events| - i, 1
  {
    if i == |events| {
      SweepEnd(events, steps, spans, k, groups);
    } else if k < |spans| && i > spans[k].hi {
      SweepAfterRun(events, steps, spans, k, i, groups, goal);
    } else {
      SweepAfterEvent(events, steps, spans, k, i, groups, goal);
    }
  }

  lemma {:induction false} SweepAfterRun(events: seq<Event>, steps: seq<Step>, spans: seq<Span>, k: nat, i: nat,
                                         groups: seq<DroppedGroup>, goal: seq<DroppedGroup>)
    requires Spanned(events, steps, spans) && k < |spans| && i < |events| && i > spans[k].hi
    requires Sweeping(events, steps, spans, k, i, groups) && goal == Groups(events, steps, spans, |steps| + 1)
    ensures SweepFrom(events, spans, k, i, groups) == goal
    decreases |spans| - k + |events| - i, 0
  {
    RunStep(events, steps, spans, k, i, groups);
    SweepFindsGaps(events, steps, spans, k + 1, i, groups, goal);
  }

  lemma {:induction false} SweepAfterEvent(events: seq<Event>, steps: seq<Step>, spans: seq<Span>, k: nat, i: nat,
                                           groups: seq<DroppedGroup>, goal: seq<DroppedGroup>)
    requires Spanned(events, steps, spans) && k <= |spans| && i < |events| && (k < |spans| ==> i <= spans[k].hi)
    requires Sweeping(events, steps, spans, k, i, groups) && goal == Groups(events, steps, spans, |steps| + 1)
    ensures SweepFrom(events, spans, k, i, groups) == goal
    decreases |spans| - k + |events| - i, 0
  {
    var taken := Taken(spans, k, i, groups, events[i]);
    EventStep(events, steps, spans, k, i, groups);
    SweepFromTakes(events, spans, k, i, groups, taken);
    SweepFindsGaps(events, steps, spans, k, i + 1, taken, goal);
  }

  /** Located by their ids, the runs are the true ones, and the sweep between them finds the gaps. */
  lemma LocatedSweepFindsGaps(events: seq<Event>, steps: seq<Step>, spans: seq<Span>, found: seq<Span>)
    requires DistinctIds(events) && Spanned(events, steps, spans) && |found| == |steps|
    requires forall k | 0 <= k < |steps| :: Names(events, steps[k], found[k])
    ensures SweepFrom(events, found, 0, 0, []) == Groups(events, steps, spans, |steps| + 1)
  {
    SpansAreUnique(events, steps, spans, found);
    SweepStarts(events, steps, spans);
    SweepFindsGaps(events, steps, spans, 0, 0, [], Groups(events, steps, spans, |steps| + 1));
  }

  method CountFolded(steps: seq<Step>) returns (folded: nat)
    ensures folded == StepsCount(steps)
  {
    folded := 0;
    for k := 0 to |steps|
      invariant folded == StepsCount(steps[..k])
    {
      assert steps[..k + 1][..k] == steps[..k];
      folded := folded + steps[k].count;
    }
    assert steps[..|steps|] == steps;
  }

  method SweepDrops(sorted: seq<Event>, spans: seq<Span>) returns (groups: seq<DroppedGroup>)
    ensures groups == SweepFrom(sorted, spans, 0, 0, [])
  {
    groups := [];
    var si := 0;
    for i := 0 to |sorted|
      invariant si <= |spans|
      invariant SweepFrom(sorted, spans, si, i, groups) == SweepFrom(sorted, spans, 0, 0, [])
    {
      while si < |spans| && i > spans[si].hi
        invariant si <= |spans|
        invariant SweepFrom(sorted, spans, si, i, groups) == SweepFrom(sorted, spans, 0, 0, [])
      {
        si := si + 1;
      }
      if si < |spans| && i >= spans[si].lo { continue; }
      if |groups| > 0 && groups[|groups| - 1].beforeStep == si {
        groups := groups[|groups| - 1 := DroppedGroup(si, groups[|groups| - 1].events + [sorted[i]])];
      } else {
        groups := groups + [DroppedGroup(si, [sorted[i]])];
      }
    }
  }

  /**
   * Recovers the drops of a batch from its steps' ids and counts alone. `None`
   * stands for the thrown error; on coalesced steps it never happens, and the
   * groups are exactly the gaps between the runs.
   */
  method GroupDroppedEvents(sorted: seq<Event>, steps: seq<Step>, ghost spans: seq<Span>)
      returns (result: Option<seq<DroppedGroup>>)
    requires DistinctIds(sorted)
    ensures Spanned(sorted, steps, spans) ==> result == Some(Groups(sorted, steps, spans, |steps| + 1))
    ensures result.None? <==>
              StepsCount(steps) != |sorted| && exists k :: 0 <= k < |steps| && !Located(sorted, steps[k])
  {
    var folded := CountFolded(steps);
    if folded == |sorted| {
      if Spanned(sorted, steps, spans) { AllFoldedNoGroups(sorted, steps, spans); }
      return Some([]);
    }
    if Spanned(sorted, steps, spans) { RunsAreLocated(sorted, steps, spans); }
    var located := LocateSteps(sorted, steps);
    if located.None? { return None; }
    if Spanned(sorted, steps, spans) { LocatedSweepFindsGaps(sorted, steps, spans, located.value); }
    var groups := SweepDrops(sorted, located.value);
    result := Some(groups);
  }
}
