/** The CONTACT / PRIVACY POLICY toggle of the About column.

    The column keeps two booleans. The CONTACT button flips `showContact` and
    clears `showPolicy`; the PRIVACY POLICY button does the symmetric thing.
    Both setters run in one click handler, so React applies them together.
    `Nested` is the three-state view of the same machine: at most one nested
    block is open, and opening the open one closes it.
 */
module Toggle {

  datatype Gate = Gate(showContact: bool, showPolicy: bool)

  datatype Button = ContactButton | PolicyButton

  /** Both blocks closed, as on first render. */
  const AllClosed: Gate := Gate(false, false)

  predicate Exclusive(g: Gate) {
    !(g.showContact && g.showPolicy)
  }

  /** One click. Whatever the state before, at most one block is open after:
      the clicked button's block flips and the other one is closed. */
  function Press(g: Gate, b: Button): (r: Gate)
    ensures Exclusive(r)
    ensures b == ContactButton ==> (r.showContact <==> !g.showContact) && !r.showPolicy
    ensures b == PolicyButton ==> (r.showPolicy <==> !g.showPolicy) && !r.showContact
  {
    match b
    case ContactButton => Gate(!g.showContact, false)
    case PolicyButton => Gate(false, !g.showPolicy)
  }

  /** Any sequence of clicks. */
  function PressAll(g: Gate, bs: seq<Button>): (r: Gate)
    ensures Exclusive(g) ==> Exclusive(r)
    ensures bs != [] ==> Exclusive(r)
    decreases |bs|
  {
    if bs == [] then g else PressAll(Press(g, bs[0]), bs[1..])
  }

  /** From the initial state no sequence of clicks opens both blocks. */
  lemma NeverBothOpen(bs: seq<Button>)
    ensures !(PressAll(AllClosed, bs).showContact && PressAll(AllClosed, bs).showPolicy)
  {
  }

  /** Clicking the same button twice undoes the first click on its own flag and
      leaves the other one cleared; from the initial state it is a no-op. */
  lemma PressTwice(g: Gate, b: Button)
    ensures b == ContactButton ==> Press(Press(g, b), b) == Gate(g.showContact, false)
    ensures b == PolicyButton ==> Press(Press(g, b), b) == Gate(false, g.showPolicy)
    ensures Press(Press(AllClosed, b), b) == AllClosed
  {
  }

  /** Which nested block is open. */
  datatype Nested = NoneOpen | ContactOpen | PolicyOpen

  function Target(b: Button): Nested {
    match b
    case ContactButton => ContactOpen
    case PolicyButton => PolicyOpen
  }

  /** The three-state machine: a button opens its block, closing any other,
      or closes its block when that one is already open. */
  function Select(n: Nested, b: Button): (r: Nested)
    ensures r == NoneOpen || r == Target(b)
    ensures r == NoneOpen <==> n == Target(b)
  {
    if n == Target(b) then NoneOpen else Target(b)
  }

  function Abs(g: Gate): Nested
    requires Exclusive(g)
  {
    if g.showContact then ContactOpen else if g.showPolicy then PolicyOpen else NoneOpen
  }

  function Concrete(n: Nested): (g: Gate)
    ensures Exclusive(g) && Abs(g) == n
  {
    match n
    case NoneOpen => AllClosed
    case ContactOpen => Gate(true, false)
    case PolicyOpen => Gate(false, true)
  }

  /** The two booleans, restricted to exclusive states, are the three-state
      machine: the abstraction is one-to-one and each click is a `Select`. */
  lemma PressRefinesSelect(g: Gate, b: Button)
    requires Exclusive(g)
    ensures Concrete(Abs(g)) == g
    ensures Abs(Press(g, b)) == Select(Abs(g), b)
  {
  }
}
