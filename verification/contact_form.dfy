/** The contact form opened by the CONTACT button.

    Its header and closing brace are mounted with the form. The three field
    labels live inside the `<form>` element, which is only rendered once the
    form's own timeout (startDelay + 250) has fired, so the labels' start
    delays count from that later instant. Times here are measured from the
    form's mount; `d` is its `startDelay` prop.
 */
module ContactForm {
  import opened Typewriter
  import opened Clock

  const HeaderSpeed: nat := 18
  const LabelSpeed: nat := 12

  const FormGap: nat := 250
  const NameGap: nat := 300
  const EmailGap: nat := 420
  const MessageGap: nat := 540
  const BraceGap: nat := 900

  const Header: string := "let contactForm = {"
  const NameLabel: string := "name:"
  const EmailLabel: string := "email:"
  const MessageLabel: string := "message:"
  const Brace: string := "}"

  /** When the `<form>` element, and with it the three labels, is mounted. */
  function FormMount(d: nat): nat { d + FormGap }

  function HeaderSlot(d: nat): Slot { Slot(0, Props(Header, HeaderSpeed, d)) }

  function NameSlot(d: nat): Slot {
    Slot(FormMount(d), Props(NameLabel, LabelSpeed, d + NameGap))
  }

  function EmailSlot(d: nat): Slot {
    Slot(FormMount(d), Props(EmailLabel, LabelSpeed, d + EmailGap))
  }

  function MessageSlot(d: nat): Slot {
    Slot(FormMount(d), Props(MessageLabel, LabelSpeed, d + MessageGap))
  }

  function BraceSlot(d: nat): Slot { Slot(0, Props(Brace, HeaderSpeed, d + BraceGap)) }

  /** The start offsets the form is written with, in render order: header,
      form shown, the three labels, closing brace. They strictly increase. */
  function Offsets(d: nat): (o: seq<nat>)
    ensures |o| == 6
    ensures forall j, k :: 0 <= j < k < |o| ==> o[j] < o[k]
    ensures o[0] == d && o[|o| - 1] == d + BraceGap
  {
    [HeaderSlot(d).props.startDelay, FormMount(d), NameSlot(d).props.startDelay,
     EmailSlot(d).props.startDelay, MessageSlot(d).props.startDelay,
     BraceSlot(d).props.startDelay]
  }

  datatype Form = Hidden | Shown(name: State, email: State, message: State)

  /** Everything the contact form shows at one moment. */
  datatype View = View(header: State, form: Form, brace: State)

  /** The form at time t after its mount. */
  function ViewAt(d: nat, t: nat): (v: View)
    ensures v.form.Shown? <==> FormMount(d) <= t
    ensures Consistent(Header, v.header) && Consistent(Brace, v.brace)
    ensures v.form.Shown? ==>
              && Consistent(NameLabel, v.form.name)
              && Consistent(EmailLabel, v.form.email)
              && Consistent(MessageLabel, v.form.message)
  {
    View(SlotAt(HeaderSlot(d), t),
         if FormMount(d) <= t
         then Shown(SlotAt(NameSlot(d), t), SlotAt(EmailSlot(d), t), SlotAt(MessageSlot(d), t))
         else Hidden,
         SlotAt(BraceSlot(d), t))
  }

  predicate Blank(v: View) {
    v.header.out == [] && v.form.Hidden? && v.brace.out == []
  }

  /** A freshly mounted form shows nothing until the header's first tick. */
  lemma BlankIff(d: nat, t: nat)
    ensures Blank(ViewAt(d, t)) <==> t < d + HeaderSpeed
  {
    SlotStartedIff(HeaderSlot(d), t);
    SlotStartedIff(BraceSlot(d), t);
  }

  /** Header, name, email and message each finish typing before the next one
      shows a character, for every start delay. */
  lemma LabelsCascade(d: nat)
    ensures FinishesBefore(HeaderSlot(d), NameSlot(d))
    ensures FinishesBefore(NameSlot(d), EmailSlot(d))
    ensures FinishesBefore(EmailSlot(d), MessageSlot(d))
  {
    FinishesBeforeIff(HeaderSlot(d), NameSlot(d));
    FinishesBeforeIff(NameSlot(d), EmailSlot(d));
    FinishesBeforeIff(EmailSlot(d), MessageSlot(d));
  }

  /** The closing brace counts from the form's mount while the message label
      counts from the later `<form>` mount, so the brace waits for the message
      label only for start delays up to 32. The page always passes 0. */
  lemma BraceAfterMessageIff(d: nat)
    ensures FinishesBefore(MessageSlot(d), BraceSlot(d)) <==> d <= 32
  {
    FinishesBeforeIff(MessageSlot(d), BraceSlot(d));
  }
}
