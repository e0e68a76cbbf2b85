/** Milliseconds for the reveal machine.

    The effect arms a one-shot timeout of `startDelay` and, when it fires, an
    interval of `speed`: tick k (k >= 1) therefore fires `startDelay + k * speed`
    after the Typewriter was activated. A `Slot` places a Typewriter on a shared
    clock by the time at which it is mounted, which is how the page's blocks are
    laid out against each other.
 */
module Clock {
  import opened Typewriter

  /** When tick k fires, relative to the activation of the run. */
  function TickTime(p: Props, k: nat): nat
  {
    p.startDelay + k * p.speed
  }

  function FirstCharTime(p: Props): nat { TickTime(p, 1) }

  function LastCharTime(p: Props): nat { TickTime(p, |p.text|) }

  /** The tick that finds no character and hides the cursor. */
  function DoneTime(p: Props): nat { TickTime(p, |p.text| + 1) }

  lemma MulLe(a: nat, b: nat, c: nat)
    requires a <= b
    ensures a * c <= b * c
  {
  }

  /** How many ticks have fired by time t: the last tick at or before t, and
      the next one still ahead. */
  function TicksBy(p: Props, t: nat): (n: nat)
    requires p.speed > 0
    ensures n == 0 || TickTime(p, n) <= t
    ensures t < TickTime(p, n + 1)
  {
    if t < p.startDelay then 0
    else
      var d := t - p.startDelay;
      var n := d / p.speed;
      assert d == n * p.speed + d % p.speed;
      n
  }

  /** Tick k has fired by time t exactly when k is at most `TicksBy(p, t)`. */
  lemma TicksByIff(p: Props, t: nat, k: nat)
    requires p.speed > 0
    ensures k <= TicksBy(p, t) <==> (k == 0 || TickTime(p, k) <= t)
  {
    var n := TicksBy(p, t);
    if k <= n {
      MulLe(k, n, p.speed);
    } else {
      MulLe(n + 1, k, p.speed);
    }
  }

  lemma TicksByMonotone(p: Props, t1: nat, t2: nat)
    requires p.speed > 0 && t1 <= t2
    ensures TicksBy(p, t1) <= TicksBy(p, t2)
  {
    TicksByIff(p, t2, TicksBy(p, t1));
  }

  /** What a Typewriter activated at time 0 shows at time t. */
  function StateAt(p: Props, t: nat): (s: State)
    requires p.speed > 0
    ensures Consistent(p.text, s)
  {
    Run(p, TicksBy(p, t))
  }

  /** The output at time t is the prefix made of one character per tick fired. */
  lemma ProgressAt(p: Props, t: nat)
    requires p.speed > 0
    ensures StateAt(p, t).out == p.text[..Min(TicksBy(p, t), |p.text|)]
  {
    if p.text == [] { RunIdle(p, TicksBy(p, t)); } else { RunShape(p, TicksBy(p, t)); }
  }

  /** Output never shrinks as time passes within one run. */
  lemma GrowsOverTime(p: Props, t1: nat, t2: nat)
    requires p.speed > 0 && t1 <= t2
    ensures StateAt(p, t1).out <= StateAt(p, t2).out
  {
    TicksByMonotone(p, t1, t2);
    RunMonotone(p, TicksBy(p, t1), TicksBy(p, t2));
  }

  /** The whole text is on screen exactly from the last character's tick on. */
  lemma ShownIff(p: Props, t: nat)
    requires p.speed > 0
    ensures StateAt(p, t).out == p.text <==> (p.text == [] || LastCharTime(p) <= t)
  {
    var n := TicksBy(p, t);
    if p.text == [] {
      RunIdle(p, n);
    } else {
      RunShape(p, n);
      TicksByIff(p, t, |p.text|);
      if n < |p.text| {
        assert |StateAt(p, t).out| == n;
      }
    }
  }

  /** Something is on screen exactly from the first tick on, and never for an
      empty text. */
  lemma StartedIff(p: Props, t: nat)
    requires p.speed > 0
    ensures StateAt(p, t).out != [] <==> (p.text != [] && FirstCharTime(p) <= t)
  {
    var n := TicksBy(p, t);
    if p.text == [] {
      RunIdle(p, n);
    } else {
      RunShape(p, n);
      TicksByIff(p, t, 1);
    }
  }

  /** The cursor is hidden exactly from tick |text| + 1 on, one interval after
      the last character, and never for an empty text. */
  lemma DoneIff(p: Props, t: nat)
    requires p.speed > 0
    ensures StateAt(p, t).done <==> (p.text != [] && DoneTime(p) <= t)
  {
    RunDone(p, TicksBy(p, t));
    TicksByIff(p, t, |p.text| + 1);
  }

  /** After the completion tick nothing changes any more: the interval has
      been cleared and the state is the settled one of the run. */
  lemma SettledAfterDone(p: Props, t: nat)
    requires p.speed > 0 && DoneTime(p) <= t
    ensures StateAt(p, t) == Run(p, |p.text| + 1)
  {
    TicksByIff(p, t, |p.text| + 1);
    RunSettles(p, TicksBy(p, t));
  }

  /** "abc" at 10 per character with no start delay: one more character every
      10, all three shown at 30, and the cursor hidden only at 40. */
  lemma AbcScenario()
    ensures StateAt(Props("abc", 10, 0), 9).out == []
    ensures StateAt(Props("abc", 10, 0), 10).out == "a"
    ensures StateAt(Props("abc", 10, 0), 20).out == "ab"
    ensures StateAt(Props("abc", 10, 0), 30).out == "abc"
    ensures !StateAt(Props("abc", 10, 0), 39).done
    ensures StateAt(Props("abc", 10, 0), 40).done
  {
    var p := Props("abc", 10, 0);
    ProgressAt(p, 9);
    ProgressAt(p, 10);
    ProgressAt(p, 20);
    ShownIff(p, 30);
    DoneIff(p, 39);
    DoneIff(p, 40);
  }

  /** A Typewriter mounted at absolute time `mount`. */
  datatype Slot = Slot(mount: nat, props: Props)

  /** What the slot shows at absolute time t. Before it is mounted the
      Typewriter does not exist: nothing is shown, nothing is done and no timer
      is pending. */
  function SlotAt(s: Slot, t: nat): (r: State)
    requires s.props.speed > 0
    ensures Consistent(s.props.text, r)
    ensures t < s.mount ==> r == State([], false, 0, false)
  {
    if t < s.mount then State([], false, 0, false) else StateAt(s.props, t - s.mount)
  }

  function SlotFirst(s: Slot): nat { s.mount + FirstCharTime(s.props) }

  function SlotLast(s: Slot): nat { s.mount + LastCharTime(s.props) }

  lemma SlotStartedIff(s: Slot, t: nat)
    requires s.props.speed > 0
    ensures SlotAt(s, t).out != [] <==> (s.props.text != [] && SlotFirst(s) <= t)
  {
    if t >= s.mount {
      StartedIff(s.props, t - s.mount);
    }
  }

  lemma SlotShownIff(s: Slot, t: nat)
    requires s.props.speed > 0
    ensures SlotAt(s, t).out == s.props.text <==> (s.props.text == [] || SlotLast(s) <= t)
  {
    if t >= s.mount {
      ShownIff(s.props, t - s.mount);
    } else if s.props.text != [] {
      MulLe(1, |s.props.text|, s.props.speed);
    }
  }

  /** Block a has been typed out in full whenever block b shows anything. */
  ghost predicate FinishesBefore(a: Slot, b: Slot)
    requires a.props.speed > 0 && b.props.speed > 0
  {
    forall t: nat :: SlotAt(b, t).out != [] ==> SlotAt(a, t).out == a.props.text
  }

  /** Two blocks cascade exactly when a's last character is due no later than
      b's first one (or one of them has nothing to type). */
  lemma FinishesBeforeIff(a: Slot, b: Slot)
    requires a.props.speed > 0 && b.props.speed > 0
    ensures FinishesBefore(a, b) <==>
            (a.props.text == [] || b.props.text == [] || SlotLast(a) <= SlotFirst(b))
  {
    if a.props.text == [] || b.props.text == [] || SlotLast(a) <= SlotFirst(b) {
      forall t: nat | SlotAt(b, t).out != []
        ensures SlotAt(a, t).out == a.props.text
      {
        SlotStartedIff(b, t);
        SlotShownIff(a, t);
      }
    } else {
      var t := SlotFirst(b);
      SlotStartedIff(b, t);
      SlotShownIff(a, t);
    }
  }
}
