/**
 * The editor store (lib/store.ts): one object whose fields every action
 * updates in place. `setType` switches category, resets the template index
 * and the background and chooses a title for the category; the simple
 * setters each write one field; the two batch updates record the result of
 * a generation.
 */
module Store {
  import opened Wrappers
  import opened Templates

  /** The store's fields, as one value. */
  datatype EditorState = EditorState(
    category: TemplateType,
    templateIndex: int,
    title: string,
    quote: string,
    author: string,
    backgroundImage: Option<string>,
    customLogo: Option<string>,
    frameColor: string,
    textColor: string,
    overlayColor: string,
    overlayOpacity: int,
    isGenerating: bool,
    generatingText: bool,
    generatingImage: bool)

  const DefaultQuote := "La vie est ce que nous en faisons. Les voyages sont les voyageurs. Ce que nous voyons n'est pas ce que nous voyons mais ce que nous sommes."

  /** The store's initial state. */
  const Initial := EditorState(Jour, 0, "Pensée du Jour", DefaultQuote, "", None, None,
    "#d4af37", "#ffffff", "#000000", 50, false, false, false)

  /** The title `setType` gives each category. */
  function TitleFor(t: TemplateType): string {
    match t
    case Saint => "Pensée de Saint"
    case Ciel => ""
    case Evangile => "L'Évangile Illustré"
    case Jour => "Pensée du Jour"
  }

  /** The state after `setType(t)`. */
  function SwitchType(s: EditorState, t: TemplateType): EditorState {
    var keep := t == Jour || t == Saint;
    s.(category := t, templateIndex := 0, title := TitleFor(t),
       quote := if keep then s.quote else "", author := if keep then s.author else "",
       backgroundImage := None)
  }

  /** Switching the category selects its first template, sets its title,
      clears the background, keeps the text of the two quote categories,
      empties it for the other two, and touches nothing else. */
  lemma SwitchTypeEffect(s: EditorState, t: TemplateType)
    ensures var r := SwitchType(s, t);
      r.category == t && r.templateIndex == 0 && r.backgroundImage == None && r.title == TitleFor(t) &&
      (t == Jour || t == Saint ==> r.quote == s.quote && r.author == s.author) &&
      (t == Ciel || t == Evangile ==> r.quote == "" && r.author == "") &&
      r.(category := s.category, templateIndex := s.templateIndex, title := s.title,
         quote := s.quote, author := s.author, backgroundImage := s.backgroundImage) == s
  {
  }

  /** `content.title || state.title`: an absent or empty title keeps the old one. */
  function MergedTitle(previous: string, title: Option<string>): (r: string)
    ensures title.Some? && title.value != "" ==> r == title.value
    ensures title.None? || title.value == "" ==> r == previous
  {
    match title
    case Some(t) => if t != "" then t else previous
    case None => previous
  }

  /** The state after `setGeneratedContent({quote, author, title})`. */
  function WithGeneratedContent(s: EditorState, quote: string, author: string, title: Option<string>): (r: EditorState)
    ensures r.quote == quote && r.author == author && !r.generatingText
    ensures r.title == MergedTitle(s.title, title)
    ensures r.(quote := s.quote, author := s.author, title := s.title, generatingText := s.generatingText) == s
  {
    s.(quote := quote, author := author, title := MergedTitle(s.title, title), generatingText := false)
  }

  /** The state after `setGeneratedImage(url)`. */
  function WithGeneratedImage(s: EditorState, url: string): (r: EditorState)
    ensures r.backgroundImage == Some(url) && !r.generatingImage
    ensures r.(backgroundImage := s.backgroundImage, generatingImage := s.generatingImage) == s
  {
    s.(backgroundImage := Some(url), generatingImage := false)
  }

  /** `getCurrentTemplate()`. */
  function TemplateOf(s: EditorState): Result<Template, LookupError> {
    Lookup(Catalog, s.category, s.templateIndex)
  }

  /** The initial state names a template, and its opacity is a percentage. */
  lemma InitialIsValid()
    ensures TemplateOf(Initial) == Ok(JourTemplates[0])
    ensures 0 <= Initial.overlayOpacity <= 100
  {
  }

  /** After a switch to `jour` or `saint` the current template is the first
      of that category; after a switch to `ciel` or `evangile` the lookup
      fails, since the catalog has no such category. */
  lemma SwitchTypeTemplate(s: EditorState, t: TemplateType)
    ensures t == Jour || t == Saint ==> TemplateOf(SwitchType(s, t)) == Ok(Catalog(t).value[0])
    ensures t == Ciel || t == Evangile ==> TemplateOf(SwitchType(s, t)) == Err(UnknownCategory)
  {
  }

  /** Switching to the same category twice is the same as switching once. */
  lemma SwitchTypeIdempotent(s: EditorState, t: TemplateType)
    ensures SwitchType(SwitchType(s, t), t) == SwitchType(s, t)
  {
  }

  /** A merge of generated content, when it carries a title, does not depend
      on the title there was before. */
  lemma GeneratedTitleWins(s: EditorState, u: EditorState, quote: string, author: string, title: string)
    requires title != ""
    requires s.(title := u.title) == u
    ensures WithGeneratedContent(s, quote, author, Some(title)) == WithGeneratedContent(u, quote, author, Some(title))
  {
  }

  /** The store object of the editor. */
  class EditorStore {
    var category: TemplateType
    var templateIndex: int
    var title: string
    var quote: string
    var author: string
    var backgroundImage: Option<string>
    var customLogo: Option<string>
    var frameColor: string
    var textColor: string
    var overlayColor: string
    var overlayOpacity: int
    var isGenerating: bool
    var generatingText: bool
    var generatingImage: bool

    function Snapshot(): EditorState
      reads this
    {
      EditorState(category, templateIndex, title, quote, author, backgroundImage, customLogo,
        frameColor, textColor, overlayColor, overlayOpacity, isGenerating, generatingText, generatingImage)
    }

    constructor ()
      ensures Snapshot() == Initial
    {
      category := Jour;
      templateIndex := 0;
      title := "Pensée du Jour";
      quote := DefaultQuote;
      author := "";
      backgroundImage := None;
      customLogo := None;
      frameColor := "#d4af37";
      textColor := "#ffffff";
      overlayColor := "#000000";
      overlayOpacity := 50;
      isGenerating := false;
      generatingText := false;
      generatingImage := false;
    }

    /** `setType(t)`. */
    method SetType(t: TemplateType)
      modifies this
      ensures Snapshot() == SwitchType(old(Snapshot()), t)
    {
      var newTitle := "Pensée du Jour";
      var newQuote := quote;
      var newAuthor := author;
      if t == Saint {
        newTitle := "Pensée de Saint";
      } else if t == Ciel {
        newTitle := "";
        newQuote := "";
        newAuthor := "";
      } else if t == Evangile {
        newTitle := "L'Évangile Illustré";
        newQuote := "";
        newAuthor := "";
      }
      assert newTitle == TitleFor(t);
      assert newQuote == (if t == Jour || t == Saint then quote else "");
      assert newAuthor == (if t == Jour || t == Saint then author else "");
      category, templateIndex, title, quote, author, backgroundImage := t, 0, newTitle, newQuote, newAuthor, None;
    }

    method SetTemplateIndex(index: int)
      modifies this
      ensures Snapshot() == old(Snapshot()).(templateIndex := index)
    {
      templateIndex := index;
    }

    method SetTitle(x: string)
      modifies this
      ensures Snapshot() == old(Snapshot()).(title := x)
    {
      title := x;
    }

    method SetQuote(x: string)
      modifies this
      ensures Snapshot() == old(Snapshot()).(quote := x)
    {
      quote := x;
    }

    method SetAuthor(x: string)
      modifies this
      ensures Snapshot() == old(Snapshot()).(author := x)
    {
      author := x;
    }

    method SetBackgroundImage(url: Option<string>)
      modifies this
      ensures Snapshot() == old(Snapshot()).(backgroundImage := url)
    {
      backgroundImage := url;
    }

    method SetCustomLogo(url: Option<string>)
      modifies this
      ensures Snapshot() == old(Snapshot()).(customLogo := url)
    {
      customLogo := url;
    }

    method SetFrameColor(color: string)
      modifies this
      ensures Snapshot() == old(Snapshot()).(frameColor := color)
    {
      frameColor := color;
    }

    method SetTextColor(color: string)
      modifies this
      ensures Snapshot() == old(Snapshot()).(textColor := color)
    {
      textColor := color;
    }

    method SetOverlayColor(color: string)
      modifies this
      ensures Snapshot() == old(Snapshot()).(overlayColor := color)
    {
      overlayColor := color;
    }

    method SetOverlayOpacity(opacity: int)
      modifies this
      ensures Snapshot() == old(Snapshot()).(overlayOpacity := opacity)
    {
      overlayOpacity := opacity;
    }

    method SetIsGenerating(generating: bool)
      modifies this
      ensures Snapshot() == old(Snapshot()).(isGenerating := generating)
    {
      isGenerating := generating;
    }

    method SetGeneratingText(generating: bool)
      modifies this
      ensures Snapshot() == old(Snapshot()).(generatingText := generating)
    {
      generatingText := generating;
    }

    method SetGeneratingImage(generating: bool)
      modifies this
      ensures Snapshot() == old(Snapshot()).(generatingImage := generating)
    {
      generatingImage := generating;
    }

    /** `getCurrentTemplate()`: reads the store, changes nothing. */
    method GetCurrentTemplate() returns (r: Result<Template, LookupError>)
      ensures r == TemplateOf(Snapshot())
      ensures r.Ok? <==> (category == Jour || category == Saint) && 0 <= templateIndex < 3
    {
      LookupDefined(category, templateIndex);
      r := Lookup(Catalog, category, templateIndex);
    }

    /** `setGeneratedContent({quote, author, title})`. */
    method SetGeneratedContent(q: string, a: string, t: Option<string>)
      modifies this
      ensures Snapshot() == WithGeneratedContent(old(Snapshot()), q, a, t)
    {
      quote := q;
      author := a;
      title := MergedTitle(title, t);
      generatingText := false;
    }

    /** `setGeneratedImage(url)`. */
    method SetGeneratedImage(url: string)
      modifies this
      ensures Snapshot() == WithGeneratedImage(old(Snapshot()), url)
    {
      backgroundImage := Some(url);
      generatingImage := false;
    }
  }
}
