/** The home page: three columns typing side by side, each with its own start
    delay. The columns share nothing; the column bodies are opaque copy. */
module Home {
  import opened Clock
  import opened Column

  const ColumnStagger: nat := 200

  /** The About, Projects and Team columns, in page order. */
  function Columns(about: string, projects: string, team: string): (cs: seq<Spec>)
    ensures |cs| == 3
    ensures forall j :: 0 <= j < |cs| ==> cs[j].delay == j * ColumnStagger
    ensures forall j :: 0 <= j < |cs| ==> (HasButtons(cs[j]) <==> j == 0)
    ensures cs[0].body == about && cs[1].body == projects && cs[2].body == team
  {
    [Spec("aboutText", about, 0),
     Spec("projectsText", projects, 200),
     Spec("teamText", team, 400)]
  }

  /** Every column's header is still typing when its body starts: the page's
      variable names are all longer than four characters. */
  lemma HeadersOverlapBodies(about: string, projects: string, team: string, j: nat)
    requires j < 3
    requires Columns(about, projects, team)[j].body != []
    ensures !FinishesBefore(HeaderSlot(Columns(about, projects, team)[j]),
                            BodySlot(Columns(about, projects, team)[j]))
  {
    HeaderBeforeBodyIff(Columns(about, projects, team)[j]);
  }

  /** In the About column, the buttons wait for the body. */
  lemma AboutButtonsWaitForBody(about: string, projects: string, team: string)
    ensures FinishesBefore(BodySlot(Columns(about, projects, team)[0]),
                           ContactLabelSlot(Columns(about, projects, team)[0]))
    ensures FinishesBefore(BodySlot(Columns(about, projects, team)[0]),
                           PolicyLabelSlot(Columns(about, projects, team)[0]))
  {
    ButtonsAfterBody(Columns(about, projects, team)[0]);
  }
}
