/**
 * The template catalog (lib/templates.ts) and its legacy twin
 * (js/templates.js): read-only records, three per category, indexed by the
 * editor's `templateIndex`. The editor's state also switches to the
 * categories `ciel` and `evangile`, which have no entry in the catalog, and
 * the frame dispatcher tests tags that the `FrameStyle` union does not list;
 * both are part of the types here.
 */
module Templates {
  import opened Wrappers
  import opened Strings

  datatype TemplateType = Jour | Saint | Ciel | Evangile

  /** The category key as written in the source. */
  function CategoryName(t: TemplateType): string {
    match t
    case Jour => "jour"
    case Saint => "saint"
    case Ciel => "ciel"
    case Evangile => "evangile"
  }

  /** Every frame-style tag the renderer tests, plus any other tag. */
  datatype FrameStyle =
    | Circular | Geometric | Elegant | Ornate | GeometricSacred
    | RegardCiel | RegardCielNom | RegardCielCitation
    | EvangileSimple | EvangileVerset | EvangileNarratif
    | Unlisted(tag: string)

  const KnownTags: seq<string> := [
    "circular", "geometric", "elegant", "ornate", "geometric-sacred",
    "regard-ciel", "regard-ciel-nom", "regard-ciel-citation",
    "evangile-simple", "evangile-verset", "evangile-narratif"]

  /** The tag string of a frame style. */
  function Tag(f: FrameStyle): string {
    match f
    case Circular => "circular"
    case Geometric => "geometric"
    case Elegant => "elegant"
    case Ornate => "ornate"
    case GeometricSacred => "geometric-sacred"
    case RegardCiel => "regard-ciel"
    case RegardCielNom => "regard-ciel-nom"
    case RegardCielCitation => "regard-ciel-citation"
    case EvangileSimple => "evangile-simple"
    case EvangileVerset => "evangile-verset"
    case EvangileNarratif => "evangile-narratif"
    case Unlisted(tag) => tag
  }

  /** Reads a tag; a tag that is none of the known ones stays `Unlisted`. */
  function FromTag(tag: string): (f: FrameStyle)
    ensures Tag(f) == tag
    ensures f.Unlisted? <==> tag !in KnownTags
  {
    if tag == "circular" then Circular
    else if tag == "geometric" then Geometric
    else if tag == "elegant" then Elegant
    else if tag == "ornate" then Ornate
    else if tag == "geometric-sacred" then GeometricSacred
    else if tag == "regard-ciel" then RegardCiel
    else if tag == "regard-ciel-nom" then RegardCielNom
    else if tag == "regard-ciel-citation" then RegardCielCitation
    else if tag == "evangile-simple" then EvangileSimple
    else if tag == "evangile-verset" then EvangileVerset
    else if tag == "evangile-narratif" then EvangileNarratif
    else Unlisted(tag)
  }

  /** A frame style is well formed when an `Unlisted` one carries no known tag. */
  predicate WellFormed(f: FrameStyle) {
    f.Unlisted? ==> f.tag !in KnownTags
  }

  /** Tags identify well-formed frame styles. */
  lemma FromTagOfTag(f: FrameStyle)
    requires WellFormed(f)
    ensures FromTag(Tag(f)) == f
  {
  }

  /** The renderer picks the text layout and the logo by the prefix of the
      tag: `regard-ciel…`, then `evangile…`, then everything else. */
  datatype Family = RegardCielFamily | EvangileFamily | DefaultFamily

  function FamilyOf(f: FrameStyle): Family {
    if StartsWith(Tag(f), "regard-ciel") then RegardCielFamily
    else if StartsWith(Tag(f), "evangile") then EvangileFamily
    else DefaultFamily
  }

  /** The three regard-ciel styles and the three gospel styles form their
      families, the five others fall to the default; an unlisted tag joins a
      family by its prefix alone. */
  lemma FamiliesOfStyles(f: FrameStyle)
    ensures f in {RegardCiel, RegardCielNom, RegardCielCitation} ==> FamilyOf(f) == RegardCielFamily
    ensures f in {EvangileSimple, EvangileVerset, EvangileNarratif} ==> FamilyOf(f) == EvangileFamily
    ensures f in {Circular, Geometric, Elegant, Ornate, GeometricSacred} ==> FamilyOf(f) == DefaultFamily
  {
    var tag := Tag(f);
    if f in {EvangileSimple, EvangileVerset, EvangileNarratif} {
      assert tag[0] == 'e';
      assert tag[..8] == "evangile";
    } else if f in {RegardCiel, RegardCielNom, RegardCielCitation} {
      assert tag[..11] == "regard-ciel";
    } else if f in {Circular, Geometric, Elegant, Ornate, GeometricSacred} {
      assert tag[0] != 'r';
      if f == Elegant {
        assert |tag| < 8;
      } else {
        assert tag[0] != 'e';
      }
    }
  }

  /** The styles of the `FrameStyle` union of the catalog's own type. */
  predicate InUnion(f: FrameStyle) {
    f == Circular || f == Geometric || f == Elegant || f == Ornate || f == GeometricSacred
  }

  datatype Template = Template(
    id: string,
    name: string,
    icon: string,
    style: string,
    defaultBg: string,
    frameStyle: FrameStyle,
    frameColor: string,
    overlayGradient: string,
    titleFont: string,
    titleSize: int,
    quoteFont: string,
    quoteSize: int,
    authorFont: string,
    authorSize: int)

  datatype GalleryImage = GalleryImage(url: string, name: string, category: string)

  /** The photo URL of an Unsplash image at 1024 by 1024. */
  function Unsplash(photo: string): string {
    "https://images.unsplash.com/photo-" + photo + "?w=1024&h=1024&fit=crop"
  }

  const Gold := "#d4af37"

  const JourTemplates: seq<Template> := [
    Template("jour-1", "Minimaliste Élégant", "circle", "minimalist",
      Unsplash("1506905925346-21bda4d32df4"), Circular, Gold,
      "linear-gradient(135deg, rgba(212, 175, 55, 0.2), rgba(105, 105, 105, 0.3))",
      "Playfair Display", 48, "Inter", 32, "Inter", 24),
    Template("jour-2", "Géométrique Moderne", "square", "geometric",
      Unsplash("1507525428034-b723cf961d3e"), Geometric, Gold,
      "linear-gradient(180deg, rgba(30, 30, 30, 0.7), rgba(60, 60, 60, 0.5))",
      "Inter", 44, "Inter", 30, "Inter", 22),
    Template("jour-3", "Artistique Lumineux", "star", "artistic",
      Unsplash("1441974231531-c6227db76b6e"), Elegant, Gold,
      "radial-gradient(circle, rgba(212, 175, 55, 0.15), rgba(0, 51, 102, 0.4))",
      "Playfair Display", 46, "Inter", 31, "Playfair Display", 23)
  ]

  const SaintTemplates: seq<Template> := [
    Template("saint-1", "Spirituel Sophistiqué", "cross", "spiritual",
      Unsplash("1548625149-fc4a29cf7092"), Ornate, Gold,
      "linear-gradient(180deg, rgba(25, 25, 112, 0.6), rgba(0, 0, 0, 0.5))",
      "Playfair Display", 50, "Inter", 32, "Playfair Display", 26),
    Template("saint-2", "Contemporain Sacré", "church", "contemporary",
      Unsplash("1519817914152-22d216bb9170"), GeometricSacred, Gold,
      "linear-gradient(135deg, rgba(0, 0, 128, 0.5), rgba(25, 25, 25, 0.6))",
      "Inter", 46, "Inter", 30, "Inter", 24),
    Template("saint-3", "Raffiné Céleste", "cloud", "celestial",
      Unsplash("1464802686167-b939a6910659"), Elegant, Gold,
      "linear-gradient(160deg, rgba(75, 0, 130, 0.5), rgba(30, 144, 255, 0.4))",
      "Playfair Display", 48, "Inter", 31, "Playfair Display", 25)
  ]

  /** `templates[type]`: only `jour` and `saint` have an entry. */
  function Catalog(t: TemplateType): Option<seq<Template>> {
    match t
    case Jour => Some(JourTemplates)
    case Saint => Some(SaintTemplates)
    case _ => None
  }

  const JourGallery: seq<GalleryImage> := [
    GalleryImage(Unsplash("1506905925346-21bda4d32df4"), "Montagne au Lever", "nature"),
    GalleryImage(Unsplash("1507525428034-b723cf961d3e"), "Océan Doré", "nature"),
    GalleryImage(Unsplash("1441974231531-c6227db76b6e"), "Forêt Lumineuse", "nature"),
    GalleryImage(Unsplash("1470071459604-3b5ec3a7fe05"), "Lac Paisible", "nature"),
    GalleryImage(Unsplash("1501785888041-af3ef285b470"), "Route Inspirante", "nature"),
    GalleryImage(Unsplash("1419242902214-272b3f66ee7a"), "Ciel Étoilé", "nature"),
    GalleryImage(Unsplash("1475924156734-496f6cac6ec1"), "Prairie Dorée", "nature")
  ]

  const SaintGallery: seq<GalleryImage> := [
    GalleryImage(Unsplash("1548625149-fc4a29cf7092"), "Cathédrale Divine", "spiritual"),
    GalleryImage(Unsplash("1519817914152-22d216bb9170"), "Monastère Ancien", "spiritual"),
    GalleryImage(Unsplash("1464802686167-b939a6910659"), "Nuages Célestes", "spiritual"),
    GalleryImage(Unsplash("1438232992991-995b7058bbb3"), "Lumière Divine", "spiritual"),
    GalleryImage(Unsplash("1504551591408-94a57e84ff1e"), "Vitraux Sacrés", "spiritual"),
    GalleryImage(Unsplash("1578662996442-48f60103fc96"), "Cloître Paisible", "spiritual"),
    GalleryImage(Unsplash("1509423350716-97f9360b4e09"), "Ciel Mystique", "spiritual"),
    GalleryImage(Unsplash("1445810694374-0a94739e4a03"), "Chapelle Lumineuse", "spiritual")
  ]

  /** `galleryImages[type]`. */
  function Gallery(t: TemplateType): Option<seq<GalleryImage>> {
    match t
    case Jour => Some(JourGallery)
    case Saint => Some(SaintGallery)
    case _ => None
  }

  /** How `templates[type][templateIndex]` fails: a missing category throws a
      `TypeError`, an index outside the list yields `undefined`. */
  datatype LookupError = UnknownCategory | IndexOutOfRange

  /** `templates[type][templateIndex]` over a catalog. */
  function Lookup(catalog: TemplateType -> Option<seq<Template>>, t: TemplateType, index: int): (r: Result<Template, LookupError>)
    ensures r == Err(UnknownCategory) <==> catalog(t).None?
    ensures r.Ok? <==> catalog(t).Some? && 0 <= index < |catalog(t).value|
    ensures r.Ok? ==> r.value == catalog(t).value[index]
  {
    match catalog(t)
    case None => Err(UnknownCategory)
    case Some(list) => if 0 <= index < |list| then Ok(list[index]) else Err(IndexOutOfRange)
  }

  /** Each of `jour` and `saint` holds exactly three templates, and the
      other categories none. */
  lemma CatalogShape(t: TemplateType)
    ensures Catalog(t).Some? <==> t == Jour || t == Saint
    ensures Catalog(t).Some? ==> |Catalog(t).value| == 3
  {
  }

  /** The lookup succeeds exactly for `jour`/`saint` and an index below 3. */
  lemma LookupDefined(t: TemplateType, index: int)
    ensures Lookup(Catalog, t, index).Ok? <==> (t == Jour || t == Saint) && 0 <= index < 3
  {
  }

  /** Template ids are `<category>-1`, `-2`, `-3`, hence unique. */
  lemma IdsAreNumbered(t: TemplateType, i: nat)
    requires Catalog(t).Some? && i < 3
    ensures Catalog(t).value[i].id == CategoryName(t) + "-" + ["1", "2", "3"][i]
  {
  }

  lemma IdsAreUnique(t: TemplateType, u: TemplateType, i: nat, j: nat)
    requires Catalog(t).Some? && Catalog(u).Some? && i < 3 && j < 3
    requires Catalog(t).value[i].id == Catalog(u).value[j].id
    ensures t == u && i == j
  {
    IdsAreNumbered(t, i);
    IdsAreNumbered(u, j);
  }

  /** Title, quote and author sizes are ordered and positive, every frame is
      gold, and every frame style belongs to the catalog's union. */
  lemma TemplateInvariants(t: TemplateType, i: nat)
    requires Catalog(t).Some? && i < 3
    ensures var tpl := Catalog(t).value[i];
      tpl.titleSize > tpl.quoteSize > tpl.authorSize > 0 &&
      tpl.frameColor == "#d4af37" &&
      InUnion(tpl.frameStyle)
  {
  }

  /** `jour` uses circular, geometric, elegant; `saint` uses ornate,
      geometric-sacred, elegant. */
  lemma FrameStylesPerCategory()
    ensures seq(3, i requires 0 <= i < 3 => JourTemplates[i].frameStyle) == [Circular, Geometric, Elegant]
    ensures seq(3, i requires 0 <= i < 3 => SaintTemplates[i].frameStyle) == [Ornate, GeometricSacred, Elegant]
  {
  }

  /** The gallery holds 7 `jour` and 8 `saint` images, and every template's
      default background is one of its own category's gallery images. */
  lemma GalleryCoversDefaults(t: TemplateType, i: nat)
    requires Catalog(t).Some? && i < 3
    ensures Gallery(t).Some?
    ensures |Gallery(t).value| == if t == Jour then 7 else 8
    ensures Gallery(t).value[i].url == Catalog(t).value[i].defaultBg
  {
  }

  /** The legacy catalog (js/templates.js): the same records, with the icon
      names carrying the `fa-` prefix of their icon font. */
  const LegacyJourTemplates: seq<Template> := [
    Template("jour-1", "Minimaliste Élégant", "fa-circle", "minimalist",
      Unsplash("1506905925346-21bda4d32df4"), Circular, Gold,
      "linear-gradient(135deg, rgba(212, 175, 55, 0.2), rgba(105, 105, 105, 0.3))",
      "Playfair Display", 48, "Inter", 32, "Inter", 24),
    Template("jour-2", "Géométrique Moderne", "fa-square", "geometric",
      Unsplash("1507525428034-b723cf961d3e"), Geometric, Gold,
      "linear-gradient(180deg, rgba(30, 30, 30, 0.7), rgba(60, 60, 60, 0.5))",
      "Inter", 44, "Inter", 30, "Inter", 22),
    Template("jour-3", "Artistique Lumineux", "fa-star", "artistic",
      Unsplash("1441974231531-c6227db76b6e"), Elegant, Gold,
      "radial-gradient(circle, rgba(212, 175, 55, 0.15), rgba(0, 51, 102, 0.4))",
      "Playfair Display", 46, "Inter", 31, "Playfair Display", 23)
  ]

  const LegacySaintTemplates: seq<Template> := [
    Template("saint-1", "Spirituel Sophistiqué", "fa-cross", "spiritual",
      Unsplash("1548625149-fc4a29cf7092"), Ornate, Gold,
      "linear-gradient(180deg, rgba(25, 25, 112, 0.6), rgba(0, 0, 0, 0.5))",
      "Playfair Display", 50, "Inter", 32, "Playfair Display", 26),
    Template("saint-2", "Contemporain Sacré", "fa-church", "contemporary",
      Unsplash("1519817914152-22d216bb9170"), GeometricSacred, Gold,
      "linear-gradient(135deg, rgba(0, 0, 128, 0.5), rgba(25, 25, 25, 0.6))",
      "Inter", 46, "Inter", 30, "Inter", 24),
    Template("saint-3", "Raffiné Céleste", "fa-cloud", "celestial",
      Unsplash("1464802686167-b939a6910659"), Elegant, Gold,
      "linear-gradient(160deg, rgba(75, 0, 130, 0.5), rgba(30, 144, 255, 0.4))",
      "Playfair Display", 48, "Inter", 31, "Playfair Display", 25)
  ]

  /** `templates[type]` in js/templates.js. */
  function LegacyCatalog(t: TemplateType): Option<seq<Template>> {
    match t
    case Jour => Some(LegacyJourTemplates)
    case Saint => Some(LegacySaintTemplates)
    case _ => None
  }

  /** The two catalogs agree on everything but the icon prefix. */
  lemma LegacyCatalogAgrees(t: TemplateType, i: nat)
    requires Catalog(t).Some? && i < 3
    ensures LegacyCatalog(t).Some? && |LegacyCatalog(t).value| == 3
    ensures LegacyCatalog(t).value[i] == Catalog(t).value[i].(icon := "fa-" + Catalog(t).value[i].icon)
  {
  }
}
