/** The reveal machine behind the page's `Typewriter` component.

    One run of the component's effect is modelled as `Activate` followed by a
    number of interval ticks (`Tick`). Wall-clock time is abstracted away here:
    module `Clock` maps ticks to milliseconds. A run is cancelled and a fresh one
    started whenever one of the effect's dependencies (text, speed, start delay)
    changes; `Component` and `Step` model that restart.
 */
module Typewriter {

  /** The three values the reveal effect depends on. Styling props are not
      dependencies of the effect and are left out. */
  datatype Props = Props(text: string, speed: nat, startDelay: nat)

  /** What one mounted Typewriter holds:
      - `out`   the characters shown so far,
      - `done`  whether the cursor has been hidden,
      - `i`     the index of the next character the interval will read,
      - `armed` whether a timeout or an interval of the current run is pending. */
  datatype State = State(out: string, done: bool, i: nat, armed: bool)

  function Min(a: nat, b: nat): nat { if a <= b then a else b }

  /** The invariant every state of a run keeps with respect to its text. */
  predicate Consistent(text: string, s: State) {
    && s.i <= |text|
    && s.out == text[..s.i]
    && (s.done ==> s.i == |text| && !s.armed)
    && (text == [] ==> !s.armed && !s.done)
  }

  /** The effect body: clear the output and the completion flag, and arm the
      start timer unless the text is empty. */
  function Activate(p: Props): (s: State)
    ensures Consistent(p.text, s)
    ensures s.out == [] && !s.done && s.i == 0
    ensures s.armed <==> p.text != []
  {
    State([], false, 0, p.text != [])
  }

  /** One firing of the interval. A state whose timers are cleared never ticks. */
  function Tick(text: string, s: State): (r: State)
    ensures !s.armed ==> r == s
    ensures Consistent(text, s) ==> Consistent(text, r)
    // at most one character is appended, and only at the end
    ensures s.out <= r.out && |r.out| <= |s.out| + 1
    // the appended character is the next one of the text
    ensures |r.out| == |s.out| + 1 ==> s.i < |text| && r.out[|s.out|] == text[s.i]
    // the read index moves exactly when a character is appended
    ensures r.i == s.i + 1 <==> |r.out| == |s.out| + 1
    ensures r.i == s.i || r.i == s.i + 1
    // completion switches on alone, once the text is exhausted, and stops the interval
    ensures r.done != s.done ==> r.done && r.out == s.out && s.i >= |text| && !r.armed
  {
    if !s.armed then s
    else if s.i < |text| then s.(out := s.out + [text[s.i]], i := s.i + 1)
    else s.(done := true, armed := false)
  }

  /** The state after k ticks of a run started with props p. */
  function Run(p: Props, k: nat): (s: State)
    ensures Consistent(p.text, s)
  {
    if k == 0 then Activate(p) else Tick(p.text, Run(p, k - 1))
  }

  /** For a non-empty text, k ticks show the first min(k, |text|) characters;
      completion arrives at tick |text| + 1, one tick after the last character,
      and from then on no timer is pending. */
  lemma {:induction false} RunShape(p: Props, k: nat)
    requires p.text != []
    ensures Run(p, k) == State(p.text[..Min(k, |p.text|)], k > |p.text|,
                               Min(k, |p.text|), k <= |p.text|)
  {
    if k > 0 {
      RunShape(p, k - 1);
      if k - 1 < |p.text| {
        assert p.text[..k - 1] + [p.text[k - 1]] == p.text[..k];
      }
    }
  }

  /** An empty text arms no timer: nothing is ever shown and the run never
      completes. */
  lemma {:induction false} RunIdle(p: Props, k: nat)
    requires p.text == []
    ensures Run(p, k) == State([], false, 0, false)
  {
    if k > 0 {
      RunIdle(p, k - 1);
    }
  }

  /** Completion, stated on its own: a run is done exactly from tick |text| + 1
      on, and only for a non-empty text, which is then shown in full. */
  lemma RunDone(p: Props, k: nat)
    ensures Run(p, k).done <==> p.text != [] && k >= |p.text| + 1
    ensures Run(p, k).done ==> Run(p, k).out == p.text
  {
    if p.text == [] { RunIdle(p, k); } else { RunShape(p, k); }
  }

  /** Within one run the output only grows, by extension of what was shown. */
  lemma RunMonotone(p: Props, j: nat, k: nat)
    requires j <= k
    ensures Run(p, j).out <= Run(p, k).out
  {
    if p.text == [] {
      RunIdle(p, j);
      RunIdle(p, k);
    } else {
      RunShape(p, j);
      RunShape(p, k);
    }
  }

  /** Once the interval is cleared, further ticks change nothing: every run
      settles at tick |text| + 1 (at tick 0 for an empty text). */
  lemma RunSettles(p: Props, k: nat)
    ensures Run(p, k) == Run(p, Min(k, |p.text| + 1))
    ensures p.text == [] ==> Run(p, k) == Run(p, 0)
  {
    if p.text == [] {
      RunIdle(p, k);
      RunIdle(p, Min(k, 1));
      RunIdle(p, 0);
    } else {
      RunShape(p, k);
      RunShape(p, Min(k, |p.text| + 1));
    }
  }

  /** A mounted Typewriter: the props its current run was started with and the
      state of that run. */
  datatype Component = Component(props: Props, state: State)

  /** What can happen to a mounted Typewriter: its interval fires, or its
      parent renders it again with (possibly) new props. */
  datatype Event = TickEvent | Render(next: Props)

  /** A new Typewriter starts from `useState("")` and `useState(false)` and
      runs its effect for the props it was rendered with. */
  function Mount(p: Props): (c: Component)
    ensures c.props == p && Consistent(p.text, c.state)
    ensures c.state == Run(p, 0)
    ensures c.state.out == [] && !c.state.done && c.state.i == 0
  {
    Component(p, Activate(p))
  }

  /** Cleanup of the old run (both timers cleared) followed by the effect for
      the new props. Nothing of the old run survives. */
  function Restart(c: Component, next: Props): (r: Component)
    ensures r.props == next
    ensures r.state == Run(next, 0)
    ensures Consistent(next.text, r.state)
  {
    Component(next, Activate(next))
  }

  /** The effect's cleanup on its own, as on unmount: both timers are
      cleared and what is shown stays as it was. */
  function Cancel(c: Component): (r: Component)
    ensures r.props == c.props && !r.state.armed
    ensures r.state.out == c.state.out && r.state.done == c.state.done
    ensures Consistent(c.props.text, c.state) ==> Consistent(r.props.text, r.state)
  {
    c.(state := c.state.(armed := false))
  }

  /** React re-runs the effect only when a dependency changed. */
  function Step(c: Component, e: Event): (r: Component)
    ensures Consistent(c.props.text, c.state) ==> Consistent(r.props.text, r.state)
    ensures e.Render? && e.next != c.props ==> r.props == e.next && r.state == Run(e.next, 0)
    ensures e.Render? && e.next == c.props ==> r == c
    ensures e.TickEvent? ==> r.props == c.props && c.state.out <= r.state.out
  {
    match e
    case TickEvent => c.(state := Tick(c.props.text, c.state))
    case Render(next) => if next == c.props then c else Restart(c, next)
  }

  function Replay(c: Component, es: seq<Event>): (r: Component)
    ensures Consistent(c.props.text, c.state) ==> Consistent(r.props.text, r.state)
    decreases |es|
  {
    if es == [] then c else Replay(Step(c, es[0]), es[1..])
  }

  /** Whatever sequence of ticks and renders a mounted Typewriter sees, what it
      shows is a prefix of its current text: never a splice of an old text and
      a new one. */
  lemma NeverSplices(p: Props, es: seq<Event>)
    ensures Replay(Mount(p), es).state.out <= Replay(Mount(p), es).props.text
  {
  }

  /** A mount followed by k interval firings is exactly the run of k ticks. */
  lemma {:induction false} ReplayTicks(c: Component, k: nat, j: nat)
    requires c.state == Run(c.props, j)
    ensures Replay(c, seq(k, _ => TickEvent)) == Component(c.props, Run(c.props, j + k))
    decreases k
  {
    if k > 0 {
      var es := seq(k, _ => TickEvent);
      assert es[1..] == seq(k - 1, _ => TickEvent);
      ReplayTicks(Step(c, TickEvent), k - 1, j + 1);
    }
  }

  /** After cleanup no interval firing can change the component. */
  lemma {:induction false} CancelledStaysPut(c: Component, es: seq<Event>)
    requires forall j :: 0 <= j < |es| ==> es[j].TickEvent?
    ensures Replay(Cancel(c), es) == Cancel(c)
    decreases |es|
  {
    if es != [] {
      CancelledStaysPut(c, es[1..]);
    }
  }
}
