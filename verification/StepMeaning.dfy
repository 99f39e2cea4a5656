/** What a coalesced step says about its events, and what a dropped event was. */
module StepMeaning {
  import opened Prelude
  import C = Coalescer

  /** The longest pause between two events of a step that begins with `action`; -1 where nothing is ever absorbed. */
  function GapBound(action: C.Action): int {
    match action
    case TextChange => 10_000
    case TypingActivity => 10_000
    case Scroll => 3_000
    case Click => 500
    case _ => -1
  }

  /** `e` can be a later event of a step that began with `first`: same kind of action on the same thing. */
  predicate Continues(first: C.Event, e: C.Event) {
    match first.action
    case TextChange =>
      e.action.TextChange? && e.windowTitle == first.windowTitle && e.identifier == first.identifier
    case TypingActivity => e.action.TypingActivity?
    case Scroll => e.action.Scroll? && e.windowTitle == first.windowTitle
    case Click => e.action.FocusChange? && C.TargetKey(e) == C.TargetKey(first)
    case _ => false
  }

  /**
   * `e`, coming right after `last`, is more of the step that began with `first`:
   * the same app, soon, and never backwards in time.
   */
  predicate IsMoreOf(first: C.Event, last: C.Event, e: C.Event) {
    && first.bundle == e.bundle && Continues(first, e)
    && 0 <= e.observedAt - last.observedAt <= GapBound(first.action)
  }

  /** The last content seen among the events from `lo` to `hi`. */
  function LastContent(events: seq<C.Event>, lo: nat, hi: nat): Option<string>
    requires lo <= hi < |events|
    decreases hi
  {
    if events[hi].content.Some? || hi == lo then events[hi].content else LastContent(events, lo, hi - 1)
  }

  predicate InBatch(events: seq<C.Event>, span: C.Span) { span.lo <= span.hi < |events| }

  /** The target is told by its title, failing that by its identifier, failing that by its role. */
  predicate NamesTarget(target: Option<string>, e: C.Event) {
    && (e.title.Some? ==> target == e.title)
    && (e.title.None? && e.identifier.Some? ==> target == e.identifier)
    && (e.title.None? && e.identifier.None? ==> target == e.role)
  }

  /** The step is named after its first event, continued by like events soon after, and keeps the final text. */
  ghost predicate Describes(events: seq<C.Event>, step: C.Step, span: C.Span) {
    && InBatch(events, span)
    && step.action == C.StepActionOf(events[span.lo].action)
    && (forall i | span.lo < i <= span.hi :: IsMoreOf(events[span.lo], events[i - 1], events[i]))
    && step.text == (if step.action.EditText? then LastContent(events, span.lo, span.hi) else None)
    && NamesTarget(step.target, events[span.lo]) && step.role == events[span.lo].role
    && step.appName == events[span.lo].appName
  }

  /** What the sweep remembers of the last step comes from its first and last event. */
  predicate Remembers(events: seq<C.Event>, o: C.OpenStep, span: C.Span) {
    && InBatch(events, span)
    && o.windowTitle == events[span.lo].windowTitle && o.identifier == events[span.lo].identifier
    && o.targetKey == C.TargetKey(events[span.lo]) && o.lastObservedAt == events[span.hi].observedAt
    && o.step.bundle == events[span.lo].bundle
  }

  ghost predicate Meant(events: seq<C.Event>, open: seq<C.OpenStep>, spans: seq<C.Span>) {
    && |open| == |spans|
    && forall k | 0 <= k < |open| ::
         Describes(events, open[k].step, spans[k]) && Remembers(events, open[k], spans[k])
  }

  lemma LastContentStays(events: seq<C.Event>, e: C.Event, lo: nat, hi: nat)
    requires lo <= hi < |events|
    ensures LastContent(events + [e], lo, hi) == LastContent(events, lo, hi)
    decreases hi
  {
    if hi > lo { LastContentStays(events, e, lo, hi - 1); }
  }

  /** A later event changes nothing about an earlier run. */
  lemma DescriptionStays(events: seq<C.Event>, e: C.Event, o: C.OpenStep, span: C.Span)
    requires Describes(events, o.step, span) && Remembers(events, o, span)
    ensures Describes(events + [e], o.step, span) && Remembers(events + [e], o, span)
  {
    LastContentStays(events, e, span.lo, span.hi);
  }

  lemma StartDescribes(events: seq<C.Event>, e: C.Event)
    ensures var n := |events|; var o := C.NewStep(e, C.StepActionOf(e.action));
            Describes(events + [e], o.step, C.Span(n, n)) && Remembers(events + [e], o, C.Span(n, n))
  {
  }

  /** A merge is of an event that continues the step, soon after its last one. */
  lemma MergeContinues(events: seq<C.Event>, o: C.OpenStep, span: C.Span, e: C.Event)
    requires Remembers(events, o, span) && o.step.action == C.StepActionOf(events[span.lo].action)
    requires C.Rule(o, e).Merge?
    ensures IsMoreOf(events[span.lo], events[span.hi], e)
    ensures e.action.TextChange? <==> o.step.action.EditText?
  {
  }

  lemma MergeDescribes(events: seq<C.Event>, o: C.OpenStep, span: C.Span, e: C.Event)
    requires Describes(events, o.step, span) && Remembers(events, o, span)
    requires C.Rule(o, e).Merge? && span.hi == |events| - 1
    ensures var longer := C.Span(span.lo, |events|);
            && Describes(events + [e], C.Absorbed(o, e).step, longer)
            && Remembers(events + [e], C.Absorbed(o, e), longer)
  {
    MergeContinues(events, o, span, e);
    LastContentStays(events, e, span.lo, span.hi);
  }

  /** A last step that is not a focus ends with the batch so far. */
  predicate EndsTheBatch(events: seq<C.Event>, open: seq<C.OpenStep>, spans: seq<C.Span>) {
    |open| == |spans| &&
    (open != [] && !open[|open| - 1].step.action.Focus? ==> spans[|spans| - 1].hi == |events| - 1)
  }

  lemma FoldKeepsMeaning(events: seq<C.Event>, open: seq<C.OpenStep>, spans: seq<C.Span>, e: C.Event)
    requires Meant(events, open, spans)
    requires EndsTheBatch(events, open, spans)
    ensures Meant(events + [e], C.Fold(open, e), C.NextSpans(open, spans, e, |events|))
  {
    forall k | 0 <= k < |open|
      ensures Describes(events + [e], open[k].step, spans[k]) && Remembers(events + [e], open[k], spans[k])
    {
      DescriptionStays(events, e, open[k], spans[k]);
    }
    StartDescribes(events, e);
    if C.Decide(open, e).Merge? {
      C.RuleFacts(open[|open| - 1], e);
      MergeDescribes(events, open[|open| - 1], spans[|open| - 1], e);
    }
  }

  lemma LastStepEndsTheBatch(events: seq<C.Event>)
    requires C.Tidy(events, C.Coalesced(events), C.Spans(events))
    ensures EndsTheBatch(events, C.Folded(events), C.Spans(events))
  {
  }

  lemma {:induction false} FoldedIsMeant(events: seq<C.Event>)
    ensures Meant(events, C.Folded(events), C.Spans(events))
  {
    if events != [] {
      var before, e := events[..|events| - 1], events[|events| - 1];
      assert before + [e] == events;
      FoldedIsMeant(before);
      C.FoldedIsTidy(before);
      LastStepEndsTheBatch(before);
      C.OneMoreEvent(before, e);
      FoldKeepsMeaning(before, C.Folded(before), C.Spans(before), e);
    }
  }

  /**
   * Every step is named after its first event and absorbs only like events on
   * the same target, each at most the bound of its kind after the one before:
   * no step hides a pause, let alone an idle boundary. An edit keeps the last text seen.
   */
  lemma StepsMeanTheirEvents(events: seq<C.Event>, k: nat)
    requires k < |C.Coalesced(events)|
    ensures k < |C.Spans(events)| && Describes(events, C.Coalesced(events)[k], C.Spans(events)[k])
  {
    FoldedIsMeant(events);
  }

  // -------------------------------------------------------------------- drops

  /** `e` repeats the focus of the lone event of a focus step, at most a second after it. */
  predicate Repeats(first: C.Event, e: C.Event) {
    && first.action.FocusChange? && e.action.FocusChange? && first.bundle == e.bundle
    && C.TargetKey(first) == C.TargetKey(e) && 0 <= e.observedAt - first.observedAt <= 1_000
  }

  /** Run `k` is the last one that begins before event `i`. */
  predicate LastRunBefore(spans: seq<C.Span>, k: nat, i: nat) {
    k < |spans| && spans[k].hi < i && (k + 1 < |spans| ==> i < spans[k + 1].lo)
  }

  ghost predicate RepeatsLastFocus(events: seq<C.Event>, spans: seq<C.Span>, i: nat)
    requires i < |events|
  {
    exists k: nat :: LastRunBefore(spans, k, i) && spans[k].lo == spans[k].hi && Repeats(events[spans[k].lo], events[i])
  }

  ghost predicate DropsRepeat(events: seq<C.Event>, spans: seq<C.Span>) {
    && (forall k | 0 <= k < |spans| :: InBatch(events, spans[k]))
    && forall i | 0 <= i < |events| && !C.Covered(spans, i) :: RepeatsLastFocus(events, spans, i)
  }

  /** A drop repeats the focus step it follows. */
  lemma DropRepeats(events: seq<C.Event>, o: C.OpenStep, span: C.Span, e: C.Event)
    requires Describes(events, o.step, span) && Remembers(events, o, span) && C.Rule(o, e).Drop?
    ensures span.lo == span.hi && Repeats(events[span.lo], e)
  {
    assert span.lo < span.hi ==> IsMoreOf(events[span.lo], events[span.hi - 1], events[span.hi]);
  }

  lemma RepeatStays(events: seq<C.Event>, e: C.Event, spans: seq<C.Span>, next: seq<C.Span>, i: nat)
    requires i < |events| && RepeatsLastFocus(events, spans, i) && |spans| <= |next| <= |spans| + 1
    requires forall k | 0 <= k < |spans| :: InBatch(events, spans[k])
    requires forall k | 0 <= k < |spans| - 1 :: next[k] == spans[k]
    requires spans != [] ==> next[|spans| - 1].lo == spans[|spans| - 1].lo
    requires spans != [] ==> next[|spans| - 1].hi == spans[|spans| - 1].hi || spans[|spans| - 1].hi == |events| - 1
    requires |next| > |spans| ==> next[|spans|].lo == |events|
    ensures RepeatsLastFocus(events + [e], next, i)
  {
    var k: nat :| LastRunBefore(spans, k, i) && spans[k].lo == spans[k].hi && Repeats(events[spans[k].lo], events[i]);
    assert LastRunBefore(next, k, i) && next[k].lo == next[k].hi;
    assert Repeats((events + [e])[next[k].lo], (events + [e])[i]);
  }

  /** How the spans may change when one event is folded. */
  ghost predicate SpansStep(events: seq<C.Event>, spans: seq<C.Span>, next: seq<C.Span>) {
    && |spans| <= |next| <= |spans| + 1
    && (forall k | 0 <= k < |spans| - 1 :: next[k] == spans[k])
    && (spans != [] ==> next[|spans| - 1].lo == spans[|spans| - 1].lo)
    && (spans != [] ==> next[|spans| - 1].hi == spans[|spans| - 1].hi
                        || (spans[|spans| - 1].hi == |events| - 1 && next[|spans| - 1].hi == |events|))
    && (|next| > |spans| ==> next[|spans|] == C.Span(|events|, |events|))
    && (|next| > |spans| && spans != [] ==> next[|spans| - 1] == spans[|spans| - 1])
  }

  lemma FoldStepsSpans(events: seq<C.Event>, open: seq<C.OpenStep>, spans: seq<C.Span>, e: C.Event)
    requires EndsTheBatch(events, open, spans)
    ensures SpansStep(events, spans, C.NextSpans(open, spans, e, |events|))
  {
    if open != [] { C.RuleFacts(open[|open| - 1], e); }
  }

  lemma OldDropsRepeat(events: seq<C.Event>, e: C.Event, spans: seq<C.Span>, next: seq<C.Span>, i: nat)
    requires DropsRepeat(events, spans) && SpansStep(events, spans, next)
    requires i < |events| && !C.Covered(next, i)
    ensures RepeatsLastFocus(events + [e], next, i)
  {
    C.CoveredStays(spans, next, i);
    RepeatStays(events, e, spans, next, i);
  }

  lemma NextInBatch(events: seq<C.Event>, e: C.Event, spans: seq<C.Span>, next: seq<C.Span>)
    requires SpansStep(events, spans, next) && forall k | 0 <= k < |spans| :: InBatch(events, spans[k])
    ensures forall k | 0 <= k < |next| :: InBatch(events + [e], next[k])
  {
  }

  lemma StepKeepsDrops(events: seq<C.Event>, e: C.Event, spans: seq<C.Span>, next: seq<C.Span>)
    requires DropsRepeat(events, spans) && SpansStep(events, spans, next)
    requires C.Covered(next, |events|) || RepeatsLastFocus(events + [e], next, |events|)
    ensures DropsRepeat(events + [e], next)
  {
    NextInBatch(events, e, spans, next);
    forall i | 0 <= i < |events| && !C.Covered(next, i) ensures RepeatsLastFocus(events + [e], next, i) {
      OldDropsRepeat(events, e, spans, next, i);
    }
  }

  /** The event just folded is covered, unless it was dropped as a repeat. */
  lemma NewEventCoveredOrRepeats(events: seq<C.Event>, open: seq<C.OpenStep>, spans: seq<C.Span>, e: C.Event)
    requires Meant(events, open, spans)
    requires EndsTheBatch(events, open, spans)
    ensures var next := C.NextSpans(open, spans, e, |events|);
            C.Covered(next, |events|) || RepeatsLastFocus(events + [e], next, |events|)
  {
    var next := C.NextSpans(open, spans, e, |events|);
    match C.Decide(open, e)
    case Start(_) => assert next[|spans|].lo <= |events| <= next[|spans|].hi;
    case Merge =>
      C.RuleFacts(open[|open| - 1], e);
      assert next[|spans| - 1].lo <= |events| <= next[|spans| - 1].hi;
    case Drop =>
      DropRepeats(events, open[|open| - 1], spans[|open| - 1], e);
      assert LastRunBefore(next, |open| - 1, |events|);
  }

  lemma FoldKeepsDrops(events: seq<C.Event>, open: seq<C.OpenStep>, spans: seq<C.Span>, e: C.Event)
    requires Meant(events, open, spans) && DropsRepeat(events, spans)
    requires EndsTheBatch(events, open, spans)
    ensures DropsRepeat(events + [e], C.NextSpans(open, spans, e, |events|))
  {
    FoldStepsSpans(events, open, spans, e);
    NewEventCoveredOrRepeats(events, open, spans, e);
    StepKeepsDrops(events, e, spans, C.NextSpans(open, spans, e, |events|));
  }

  /**
   * What is dropped is only ever the same focus again, in the same app, within a
   * second of the focus step it directly follows.
   */
  lemma {:induction false} DroppedEventsRepeatFocus(events: seq<C.Event>)
    ensures DropsRepeat(events, C.Spans(events))
  {
    if events != [] {
      var before, e := events[..|events| - 1], events[|events| - 1];
      assert before + [e] == events;
      DroppedEventsRepeatFocus(before);
      FoldedIsMeant(before);
      C.FoldedIsTidy(before);
      LastStepEndsTheBatch(before);
      C.OneMoreEvent(before, e);
      FoldKeepsDrops(before, C.Folded(before), C.Spans(before), e);
    }
  }

  // ------------------------------------------------- every event has its place

  /** Run `k` has begun before event `i`, and the next run has not. */
  predicate RunAt(spans: seq<C.Span>, k: nat, i: nat) {
    k < |spans| && spans[k].lo < i && (k + 1 < |spans| ==> i <= spans[k + 1].lo)
  }

  /** Event `i` is in run `k` iff it is more of it, and begins the next run iff it is neither more nor a repeat. */
  predicate PlacedBy(events: seq<C.Event>, spans: seq<C.Span>, k: nat, i: nat)
    requires i < |events| && RunAt(spans, k, i)
  {
    var first, last, e := events[spans[k].lo], events[i - 1], events[i];
    && (i <= spans[k].hi <==> IsMoreOf(first, last, e))
    && (k + 1 < |spans| && spans[k + 1].lo == i <==> !IsMoreOf(first, last, e) && !Repeats(first, e))
  }

  ghost predicate AllPlaced(events: seq<C.Event>, spans: seq<C.Span>) {
    && (forall k | 0 <= k < |spans| :: InBatch(events, spans[k]))
    && forall k: nat, i: nat | i < |events| && RunAt(spans, k, i) :: PlacedBy(events, spans, k, i)
  }

  /** The rule applied to the last step is the rule on the events it stands for. */
  lemma RuleIsOnEvents(events: seq<C.Event>, o: C.OpenStep, span: C.Span, e: C.Event)
    requires Describes(events, o.step, span) && Remembers(events, o, span)
    requires o.step.action.TypeText? ==> o.lastAction.TypingActivity?
    requires !o.step.action.Focus? ==> span.hi == |events| - 1
    ensures C.Rule(o, e).Merge? <==> IsMoreOf(events[span.lo], events[|events| - 1], e)
    ensures C.Rule(o, e).Drop? <==> Repeats(events[span.lo], e)
  {
    assert span.lo < span.hi ==> IsMoreOf(events[span.lo], events[span.hi - 1], events[span.hi]);
  }

  /** A typing step was last extended by typing. */
  predicate Typed(open: seq<C.OpenStep>) {
    forall k | 0 <= k < |open| :: open[k].step.action.TypeText? ==> open[k].lastAction.TypingActivity?
  }

  lemma {:induction false} FoldedIsTyped(events: seq<C.Event>)
    ensures Typed(C.Folded(events))
  {
    if events != [] { FoldedIsTyped(events[..|events| - 1]); }
  }

  /** Where one more event leaves the events before it. */
  lemma OldStaysPlaced(events: seq<C.Event>, e: C.Event, spans: seq<C.Span>, next: seq<C.Span>, k: nat, i: nat)
    requires AllPlaced(events, spans) && SpansStep(events, spans, next)
    requires i < |events| && RunAt(next, k, i)
    ensures PlacedBy(events + [e], next, k, i)
  {
    assert RunAt(spans, k, i) && PlacedBy(events, spans, k, i);
  }

  lemma NewIsPlaced(events: seq<C.Event>, open: seq<C.OpenStep>, spans: seq<C.Span>, e: C.Event, k: nat)
    requires Meant(events, open, spans) && EndsTheBatch(events, open, spans) && Typed(open)
    requires RunAt(C.NextSpans(open, spans, e, |events|), k, |events|)
    ensures PlacedBy(events + [e], C.NextSpans(open, spans, e, |events|), k, |events|)
  {
    var last := |open| - 1;
    FoldStepsSpans(events, open, spans, e);
    assert forall j | 0 <= j < |open| :: InBatch(events, spans[j]);
    assert k == last;
    RuleIsOnEvents(events, open[last], spans[last], e);
  }

  lemma StepKeepsPlaced(events: seq<C.Event>, e: C.Event, spans: seq<C.Span>, next: seq<C.Span>)
    requires AllPlaced(events, spans) && SpansStep(events, spans, next)
    requires forall k: nat | RunAt(next, k, |events|) :: PlacedBy(events + [e], next, k, |events|)
    ensures AllPlaced(events + [e], next)
  {
    NextInBatch(events, e, spans, next);
    forall k: nat, i: nat | i < |events + [e]| && RunAt(next, k, i) ensures PlacedBy(events + [e], next, k, i) {
      if i < |events| { OldStaysPlaced(events, e, spans, next, k, i); }
    }
  }

  lemma FoldKeepsPlaced(events: seq<C.Event>, open: seq<C.OpenStep>, spans: seq<C.Span>, e: C.Event,
                        next: seq<C.Span>)
    requires Meant(events, open, spans) && EndsTheBatch(events, open, spans) && Typed(open)
    requires AllPlaced(events, spans) && next == C.NextSpans(open, spans, e, |events|)
    ensures AllPlaced(events + [e], next)
  {
    FoldStepsSpans(events, open, spans, e);
    forall k: nat | RunAt(next, k, |events|) ensures PlacedBy(events + [e], next, k, |events|) {
      NewIsPlaced(events, open, spans, e, k);
    }
    StepKeepsPlaced(events, e, spans, next);
  }

  /**
   * The runs are the largest the rules allow. Every event after the first is
   * merged exactly when it is more of the run under way, dropped exactly when it
   * repeats it as a focus, and begins a run of its own in no other case.
   */
  lemma {:induction false} EveryEventIsPlaced(events: seq<C.Event>)
    ensures AllPlaced(events, C.Spans(events))
  {
    if events != [] {
      var before, e := events[..|events| - 1], events[|events| - 1];
      assert before + [e] == events;
      EveryEventIsPlaced(before);
      FoldedIsMeant(before);
      FoldedIsTyped(before);
      C.FoldedIsTidy(before);
      LastStepEndsTheBatch(before);
      C.OneMoreEvent(before, e);
      FoldKeepsPlaced(before, C.Folded(before), C.Spans(before), e, C.Spans(events));
    }
  }

  lemma NextRunIsNew(events: seq<C.Event>, steps: seq<C.Step>, spans: seq<C.Span>, k: nat)
    requires AllPlaced(events, spans) && C.Spanned(events, steps, spans) && k + 1 < |spans|
    ensures spans[k].lo < spans[k + 1].lo < |events|
    ensures !IsMoreOf(events[spans[k].lo], events[spans[k + 1].lo - 1], events[spans[k + 1].lo])
    ensures !Repeats(events[spans[k].lo], events[spans[k + 1].lo])
  {
    assert InBatch(events, spans[k]) && InBatch(events, spans[k + 1]);
    assert PlacedBy(events, spans, k, spans[k + 1].lo);
  }

  /** Two steps in a row: the second one's first event was neither more of the first step nor a repeat of it. */
  lemma StepsAreMaximal(events: seq<C.Event>, spans: seq<C.Span>, k: nat)
    requires spans == C.Spans(events) && k + 1 < |spans|
    ensures |spans| == |C.Coalesced(events)| && spans[k].lo < spans[k + 1].lo < |events|
    ensures !IsMoreOf(events[spans[k].lo], events[spans[k + 1].lo - 1], events[spans[k + 1].lo])
    ensures !Repeats(events[spans[k].lo], events[spans[k + 1].lo])
  {
    var steps := C.Coalesced(events);
    assert C.Spanned(events, steps, spans) by { C.StepsAreRuns(events); }
    EveryEventIsPlaced(events);
    NextRunIsNew(events, steps, spans, k);
  }

  // ------------------------------------------------------- targets and order

  predicate HasNoBar(s: string) { '|' !in s }

  lemma BarIsPast(a: string, s: string)
    requires HasNoBar(a) && a <= s
    ensures forall i | 0 <= i < |s| && s[i] == '|' :: |a| <= i
  {
    assert forall i | 0 <= i < |a| :: s[i] in a;
  }

  lemma FirstPartTells(a: string, b: string, x: string, y: string)
    requires HasNoBar(a) && HasNoBar(b) && a + "|" + x == b + "|" + y
    ensures a == b && x == y
  {
    var s := a + "|" + x;
    BarIsPast(a, s);
    BarIsPast(b, s);
    assert s[|a|] == '|' && s[|b|] == '|';
    assert a == s[..|a|] && x == s[|a| + 1..] && b == s[..|b|] && y == s[|b| + 1..];
  }

  function Joined(a: string, b: string, c: string, d: string): string { a + "|" + b + "|" + c + "|" + d }

  lemma JoinedFromTheRight(a: string, b: string, c: string, d: string)
    ensures Joined(a, b, c, d) == a + "|" + (b + "|" + (c + "|" + d))
  {
  }

  lemma JoinTells(a: string, b: string, c: string, d: string, a': string, b': string, c': string, d': string)
    requires HasNoBar(a) && HasNoBar(b) && HasNoBar(c) && HasNoBar(a') && HasNoBar(b') && HasNoBar(c')
    requires Joined(a, b, c, d) == Joined(a', b', c', d')
    ensures a == a' && b == b' && c == c' && d == d'
  {
    JoinedFromTheRight(a, b, c, d);
    JoinedFromTheRight(a', b', c', d');
    FirstPartTells(a, a', b + "|" + (c + "|" + d), b' + "|" + (c' + "|" + d'));
    FirstPartTells(b, b', c + "|" + d, c' + "|" + d');
    FirstPartTells(c, c', d, d');
  }

  predicate Barless(e: C.Event) {
    HasNoBar(C.Or(e.role, "")) && HasNoBar(C.Or(e.subrole, "")) && HasNoBar(C.Or(e.title, ""))
  }

  /** Without a bar in them, two targets have one key exactly when role, subrole, title and identifier agree. */
  lemma KeysTellTargets(a: C.Event, b: C.Event)
    requires Barless(a) && Barless(b)
    ensures C.TargetKey(a) == C.TargetKey(b) <==>
              && C.Or(a.role, "") == C.Or(b.role, "") && C.Or(a.subrole, "") == C.Or(b.subrole, "")
              && C.Or(a.title, "") == C.Or(b.title, "") && C.Or(a.identifier, "") == C.Or(b.identifier, "")
  {
    if C.TargetKey(a) == C.TargetKey(b) {
      JoinTells(C.Or(a.role, ""), C.Or(a.subrole, ""), C.Or(a.title, ""), C.Or(a.identifier, ""),
                C.Or(b.role, ""), C.Or(b.subrole, ""), C.Or(b.title, ""), C.Or(b.identifier, ""));
    }
  }

  /** The canonical order: by time, at one time by the monotonic clock, and last by id. */
  lemma SortedInTime(events: seq<C.Event>, i: nat, j: nat)
    requires C.DistinctIds(events) && i < j < |events|
    ensures |C.Sort(events)| == |events|
    ensures var a, b := C.Sort(events)[i], C.Sort(events)[j];
            && a.observedAt <= b.observedAt
            && (a.observedAt == b.observedAt ==> C.Or(a.monotonic, 0) <= C.Or(b.monotonic, 0))
            && (a.observedAt == b.observedAt && C.Or(a.monotonic, 0) == C.Or(b.monotonic, 0) ==> a.id < b.id)
  {
    C.SortOrders(events);
    assert C.Before(C.Sort(events)[i], C.Sort(events)[j]);
  }
}
