/** The interactive part of the About column: the toggle together with the
    nested blocks it mounts.

    A nested block (contact form or privacy policy) is mounted when its flag
    goes from false to true and unmounted, with all its timers cleared, when
    the flag goes back to false. Both are rendered with start delay 0, so each
    one's schedule is anchored at the click that opened it.
 */
module Panel {
  import opened Typewriter
  import opened Clock
  import opened Toggle
  import ContactForm

  /** The privacy policy types at 8 per character. */
  const PolicySpeed: nat := 8
  /** The start delay both nested blocks are rendered with. */
  const NestedDelay: nat := 0

  /** The toggle plus the instant at which each nested block was last mounted. */
  datatype Panel = Panel(gate: Gate, contactSince: nat, policySince: nat)

  const Initial: Panel := Panel(AllClosed, 0, 0)

  datatype Mounted<T> = Unmounted | Mounted(view: T)

  /** A click at time `now`. A block that goes from closed to open is mounted
      afresh at `now`. */
  function PressAt(p: Panel, b: Button, now: nat): (r: Panel)
    ensures r.gate == Press(p.gate, b)
    // any block open after a click was opened by that very click
    ensures r.gate.showContact ==> !p.gate.showContact && r.contactSince == now
    ensures r.gate.showPolicy ==> !p.gate.showPolicy && r.policySince == now
  {
    var g := Press(p.gate, b);
    Panel(g,
          if g.showContact && !p.gate.showContact then now else p.contactSince,
          if g.showPolicy && !p.gate.showPolicy then now else p.policySince)
  }

  function Elapsed(since: nat, t: nat): nat {
    if since <= t then t - since else 0
  }

  /** The contact form as shown at time t, if it is mounted. */
  function ContactView(p: Panel, t: nat): (m: Mounted<ContactForm.View>)
    ensures m.Mounted? <==> p.gate.showContact
  {
    if p.gate.showContact
    then Mounted(ContactForm.ViewAt(NestedDelay, Elapsed(p.contactSince, t)))
    else Unmounted
  }

  function PolicySlot(p: Panel, policy: string): Slot {
    Slot(p.policySince, Props(policy, PolicySpeed, NestedDelay))
  }

  /** The privacy policy Typewriter at time t, if it is mounted; the policy
      text itself is opaque copy. */
  function PolicyView(p: Panel, policy: string, t: nat): (m: Mounted<State>)
    ensures m.Mounted? <==> p.gate.showPolicy
    ensures m.Mounted? ==> Consistent(policy, m.view)
  {
    if p.gate.showPolicy then Mounted(SlotAt(PolicySlot(p, policy), t)) else Unmounted
  }

  /** Opening one block tears the other one down: it is no longer mounted, so
      none of its Typewriters can show further progress. */
  lemma SwitchTearsDown(p: Panel, policy: string, now: nat, t: nat)
    ensures ContactView(PressAt(p, PolicyButton, now), t) == Unmounted
    ensures PolicyView(PressAt(p, ContactButton, now), policy, t) == Unmounted
  {
  }

  /** Once the panel is in an exclusive state, at most one nested block is
      mounted at any time. */
  lemma AtMostOneMounted(p: Panel, policy: string, t: nat)
    requires Exclusive(p.gate)
    ensures !(ContactView(p, t).Mounted? && PolicyView(p, policy, t).Mounted?)
  {
  }

  /** A block opened by a click starts from nothing at that click. */
  lemma OpeningIsFresh(p: Panel, b: Button, policy: string, now: nat)
    ensures ContactView(PressAt(p, b, now), now).Mounted? ==>
              ContactForm.Blank(ContactView(PressAt(p, b, now), now).view)
    ensures PolicyView(PressAt(p, b, now), policy, now).Mounted? ==>
              PolicyView(PressAt(p, b, now), policy, now).view.out == []
  {
    ContactForm.BlankIff(NestedDelay, 0);
    SlotStartedIff(PolicySlot(PressAt(p, b, now), policy), now);
  }

  /** What a reopened contact form shows depends only on the click that
      reopened it: no progress of an earlier, closed run carries over. */
  lemma ReopenForgetsHistory(p: Panel, q: Panel, now: nat, t: nat)
    requires PressAt(p, ContactButton, now).gate.showContact
    requires PressAt(q, ContactButton, now).gate.showContact
    ensures ContactView(PressAt(p, ContactButton, now), t)
            == ContactView(PressAt(q, ContactButton, now), t)
  {
  }

  /** CONTACT clicked on, off and on again: the third click starts a fresh run
      anchored at its own time, whatever happened at the first one. */
  lemma OnOffOn(t1: nat, t2: nat, t3: nat, t: nat)
    requires t3 <= t
    ensures var q := PressAt(PressAt(PressAt(Initial, ContactButton, t1), ContactButton, t2),
                             ContactButton, t3);
            ContactView(q, t) == Mounted(ContactForm.ViewAt(NestedDelay, t - t3))
  {
  }
}
