/**
 * The banner of the movie-detail hero card: the display configuration chosen by the
 * movie's payment type, with a fallback entry, and the price line shown for a
 * truthy payment type.
 */
module HeroCard {
  import opened Options
  import opened Catalog

  /** One entry of `paymentTypeConfig`; `text` is optional, the other fields are always given. */
  datatype ConfigPayment = ConfigPayment(bg: string, title: string, text: Option<string>, subtitle: string)

  const FucsiaBg := "bg-fucsiaBrushStroke2"
  const GreenBg := "bg-greenBrushStroke2"
  const BlueBg := "bg-blueBrushStroke2"

  const TotalPayEntry := ConfigPayment(FucsiaBg, "Disfrútala solo por", None, "")
  const MandatoryDonationEntry :=
    ConfigPayment(GreenBg, "¡Disfrútala y apoya nuestro contenido con una donación!", Some(""), "")
  const VoluntaryDonationEntry :=
    ConfigPayment(GreenBg, "¡Disfrútala y apóyanos con lo que desees!", Some(""), "Tu generosidad nos ayuda")
  const DefaultEntry := ConfigPayment(BlueBg, "¡Disfrútala gratis!", Some(""), "Sin costo alguno")

  /** The `paymentTypeConfig` record: its four own keys and nothing else. */
  function PaymentTypeConfig(key: string): (e: Option<ConfigPayment>)
    ensures e.Some? <==> key in {"PT", "DO", "DV", "default"}
  {
    if key == "PT" then Some(TotalPayEntry)
    else if key == "DO" then Some(MandatoryDonationEntry)
    else if key == "DV" then Some(VoluntaryDonationEntry)
    else if key == "default" then Some(DefaultEntry)
    else None
  }

  /** The property key a value becomes when it indexes an object. */
  function PropertyKey(raw: RawPaymentType): string {
    match raw
    case Null => "null"
    case Undefined => "undefined"
    case Code(c) => c
  }

  /**
   * `paymentTypeConfig[payment_type] || paymentTypeConfig['default']`: each of the three
   * codes selects its own entry and every other value the default one, so a
   * configuration is always selected.
   */
  function SelectConfig(raw: RawPaymentType): (c: ConfigPayment)
    ensures raw == Code("PT") ==> c == TotalPayEntry
    ensures raw == Code("DO") ==> c == MandatoryDonationEntry
    ensures raw == Code("DV") ==> c == VoluntaryDonationEntry
    ensures raw !in {Code("PT"), Code("DO"), Code("DV")} ==> c == DefaultEntry
  {
    var entry := PaymentTypeConfig(PropertyKey(raw));
    if entry.Some? then entry.value else DefaultEntry
  }

  /** Both donation types share the green stroke, full price is fucsia, everything else blue. */
  lemma BackgroundByType(raw: RawPaymentType)
    ensures SelectConfig(raw).bg == GreenBg <==> raw == Code("DO") || raw == Code("DV")
    ensures SelectConfig(raw).bg == FucsiaBg <==> raw == Code("PT")
    ensures SelectConfig(raw).bg == BlueBg <==> raw !in {Code("PT"), Code("DO"), Code("DV")}
  {
    assert GreenBg[3] != FucsiaBg[3] && GreenBg[3] != BlueBg[3] && FucsiaBg[3] != BlueBg[3];
  }

  /** JavaScript truthiness of the raw field: a non-empty string. */
  predicate Truthy(raw: RawPaymentType) {
    raw.Code? && raw.code != ""
  }

  /** The line `{text} S/{price} (PEN)`. */
  datatype PriceLine = PriceLine(text: string, amount: string, currency: string)

  /** What the banner displays. */
  datatype Banner = Banner(bg: string, title: string, priceLine: Option<PriceLine>, subtitle: string)

  /**
   * The banner for a movie whose price text is `price`: the selected configuration,
   * with its missing `text` read as the empty string, and a price line exactly when
   * the payment type is truthy.
   */
  function RenderBanner(raw: RawPaymentType, price: string): (b: Banner)
    ensures b.priceLine.Some? <==> Truthy(raw)
    ensures b.priceLine.Some? ==> b.priceLine.value == PriceLine(TextOf(SelectConfig(raw)), "S/" + price, "(PEN)")
    ensures b.bg == SelectConfig(raw).bg && b.title == SelectConfig(raw).title && b.subtitle == SelectConfig(raw).subtitle
  {
    var c := SelectConfig(raw);
    var text := if c.text.Some? then c.text.value else "";
    Banner(c.bg, c.title, if Truthy(raw) then Some(PriceLine(text, "S/" + price, "(PEN)")) else None, c.subtitle)
  }

  /** The destructuring default `text = ''`. */
  function TextOf(c: ConfigPayment): (t: string)
    ensures c.text.None? ==> t == ""
    ensures c.text.Some? ==> t == c.text.value
  {
    if c.text.Some? then c.text.value else ""
  }

  /** The full-price entry has no text of its own, and so the full-price line starts with no text. */
  lemma TotalPayLineHasEmptyText(price: string)
    ensures RenderBanner(Code("PT"), price).priceLine == Some(PriceLine("", "S/" + price, "(PEN)"))
  {
  }

  /** A free title (`null`) shows the free banner and no price; a full-price or donation title shows its price. */
  lemma FreeBannerHasNoPrice(price: string)
    ensures RenderBanner(Null, price) == Banner(BlueBg, "¡Disfrútala gratis!", None, "Sin costo alguno")
    ensures forall c :: c in {"PT", "DO", "DV"} ==> RenderBanner(Code(c), price).priceLine.Some?
  {
  }
}
