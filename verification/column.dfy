/** One column of the home page (About, Projects or Team): a code-like header
    `let <name> = "`, the body text, an empty closing-quote Typewriter, and, in
    the About column only, the CONTACT and PRIVACY POLICY buttons whose labels
    type themselves out after the body.

    All of a column's Typewriters are mounted together with the column, so their
    start delays are all measured from the same instant (time 0 here).
 */
module Column {
  import opened Typewriter
  import opened Clock

  const HeaderSpeed: nat := 28
  const BodySpeed: nat := 12
  const ButtonSpeed: nat := 18

  /** Pause between the column's start and the body's start timer. */
  const BodyGap: nat := 350
  /** Pauses between the closing quote's start and the two button labels. */
  const ContactGap: nat := 200
  const PolicyGap: nat := 250

  const ContactLabel: string := "CONTACT"
  const PolicyLabel: string := "PRIVACY POLICY"

  /** The props a column is rendered with; the body is opaque static copy. */
  datatype Spec = Spec(variableName: string, body: string, delay: nat)

  function Header(name: string): (h: string)
    ensures |h| == |name| + 8
    ensures h[4..4 + |name|] == name
  {
    "let " + name + " = \""
  }

  /** Only the About column renders the two buttons. */
  predicate HasButtons(c: Spec) {
    c.variableName == "aboutText"
  }

  /** When the closing quote starts: the column delay, the body gap, and one
      body interval per body character. */
  function CloseQuoteDelay(c: Spec): (r: nat)
    ensures r == SlotLast(BodySlot(c))
    ensures r >= c.delay + BodyGap
  {
    c.delay + BodyGap + |c.body| * BodySpeed
  }

  function HeaderSlot(c: Spec): Slot {
    Slot(0, Props(Header(c.variableName), HeaderSpeed, c.delay))
  }

  function BodySlot(c: Spec): Slot {
    Slot(0, Props(c.body, BodySpeed, c.delay + BodyGap))
  }

  function CloseSlot(c: Spec): Slot {
    Slot(0, Props([], HeaderSpeed, CloseQuoteDelay(c)))
  }

  function ContactLabelSlot(c: Spec): Slot {
    Slot(0, Props(ContactLabel, ButtonSpeed, CloseQuoteDelay(c) + ContactGap))
  }

  function PolicyLabelSlot(c: Spec): Slot {
    Slot(0, Props(PolicyLabel, ButtonSpeed, CloseQuoteDelay(c) + PolicyGap))
  }

  /** The column's Typewriters in render order. Their start delays never go
      backwards, whatever the column delay and body length. */
  function Slots(c: Spec): (r: seq<Slot>)
    ensures |r| == if HasButtons(c) then 5 else 3
    ensures forall j :: 0 <= j < |r| ==> r[j].mount == 0 && r[j].props.speed > 0
    ensures forall j, k :: 0 <= j <= k < |r| ==> r[j].props.startDelay <= r[k].props.startDelay
    ensures r[2].props.startDelay == SlotLast(r[1])
  {
    var typed := [HeaderSlot(c), BodySlot(c), CloseSlot(c)];
    if HasButtons(c) then typed + [ContactLabelSlot(c), PolicyLabelSlot(c)] else typed
  }

  /** Neither button label shows a character before the whole body is on
      screen: the closing quote starts on the body's last tick and the labels
      start 200 and 250 after it. */
  lemma ButtonsAfterBody(c: Spec)
    ensures FinishesBefore(BodySlot(c), ContactLabelSlot(c))
    ensures FinishesBefore(BodySlot(c), PolicyLabelSlot(c))
  {
    FinishesBeforeIff(BodySlot(c), ContactLabelSlot(c));
    FinishesBeforeIff(BodySlot(c), PolicyLabelSlot(c));
  }

  /** The closing-quote Typewriter has an empty text: it never arms a timer,
      never shows anything and never hides its cursor. */
  lemma CloseQuoteIdle(c: Spec, t: nat)
    ensures SlotAt(CloseSlot(c), t) == State([], false, 0, false)
  {
    var p := CloseSlot(c).props;
    if t >= CloseSlot(c).mount {
      RunIdle(p, TicksBy(p, t));
    }
  }

  /** The header is typed out before the body starts exactly when the variable
      name has at most four characters (or the body is empty). Every name the
      page uses is longer, so header and body type at the same time. */
  lemma HeaderBeforeBodyIff(c: Spec)
    ensures FinishesBefore(HeaderSlot(c), BodySlot(c)) <==>
            (c.body == [] || |c.variableName| <= 4)
  {
    FinishesBeforeIff(HeaderSlot(c), BodySlot(c));
    var n := |c.variableName|;
    if n <= 4 {
      MulLe(n + 8, 12, HeaderSpeed);
    } else {
      MulLe(13, n + 8, HeaderSpeed);
    }
  }
}
