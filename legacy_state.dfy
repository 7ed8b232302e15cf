/**
 * The legacy editor state (js/templates.js): the mutable global
 * `currentState`, the lookup `getCurrentTemplate` over the legacy catalog,
 * and the template buttons, whose click handler stores the button's index.
 */
module LegacyState {
  import opened Wrappers
  import opened Templates

  datatype State = State(
    category: TemplateType,
    templateIndex: int,
    title: string,
    quote: string,
    author: string,
    backgroundImage: Option<string>,
    frameColor: string,
    textColor: string,
    overlayColor: string,
    overlayOpacity: int)

  const Initial := State(Jour, 0, "Pensée du Jour",
    "La vie est ce que nous en faisons. Les voyages sont les voyageurs. Ce que nous voyons n'est pas ce que nous voyons mais ce que nous sommes.",
    "", None, "#d4af37", "#ffffff", "#000000", 50)

  /** `getCurrentTemplate()` over the legacy catalog. */
  function TemplateOf(s: State): Result<Template, LookupError> {
    Lookup(LegacyCatalog, s.category, s.templateIndex)
  }

  /** The indices of the buttons `renderTemplates` draws for a state: one per
      template of its category. */
  function ButtonIndices(s: State): (r: seq<int>)
    ensures LegacyCatalog(s.category).Some? ==> |r| == |LegacyCatalog(s.category).value|
    ensures forall k :: 0 <= k < |r| ==> r[k] == k
  {
    match LegacyCatalog(s.category)
    case None => []
    case Some(list) => seq(|list|, k requires 0 <= k < |list| => k)
  }

  /** The initial state is `jour`/0, with no author and half opacity, and
      its lookup is in range. */
  lemma InitialIsValid()
    ensures Initial.category == Jour && Initial.templateIndex == 0
    ensures Initial.author == "" && Initial.overlayOpacity == 50
    ensures TemplateOf(Initial) == Ok(LegacyJourTemplates[0])
  {
  }

  /** Clicking any drawn button leaves a state whose lookup succeeds and
      yields that button's template. */
  lemma ClickedButtonIsInRange(s: State, k: nat)
    requires k < |ButtonIndices(s)|
    ensures var index := ButtonIndices(s)[k];
      TemplateOf(s.(templateIndex := index)) == Ok(LegacyCatalog(s.category).value[k])
  {
    assert LegacyCatalog(s.category).Some?;
  }

  /** The page's state object `currentState`. */
  class CurrentState {
    var category: TemplateType
    var templateIndex: int
    var title: string
    var quote: string
    var author: string
    var backgroundImage: Option<string>
    var frameColor: string
    var textColor: string
    var overlayColor: string
    var overlayOpacity: int

    function Snapshot(): State
      reads this
    {
      State(category, templateIndex, title, quote, author, backgroundImage,
        frameColor, textColor, overlayColor, overlayOpacity)
    }

    constructor ()
      ensures Snapshot() == Initial
    {
      category := Jour;
      templateIndex := 0;
      title := Initial.title;
      quote := Initial.quote;
      author := "";
      backgroundImage := None;
      frameColor := "#d4af37";
      textColor := "#ffffff";
      overlayColor := "#000000";
      overlayOpacity := 50;
    }

    /** The click handler of a template button with `data-index` `index`:
        only the template index changes. */
    method SelectTemplate(index: int)
      modifies this
      ensures Snapshot() == old(Snapshot()).(templateIndex := index)
    {
      templateIndex := index;
    }

    /** `getCurrentTemplate()`: reads the state, changes nothing. */
    method GetCurrentTemplate() returns (r: Result<Template, LookupError>)
      ensures r == TemplateOf(Snapshot())
      ensures r.Ok? ==> r.value == LegacyCatalog(category).value[templateIndex]
      ensures r == Err(UnknownCategory) <==> category == Ciel || category == Evangile
    {
      r := Lookup(LegacyCatalog, category, templateIndex);
    }
  }
}
