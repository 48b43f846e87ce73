/** Brand metadata as the wizard receives it from the brand lookup proxies:
    the search results that feed the suggestion list, and the brand details
    record whose name, description and first logo populate the form. */
module Brand {
  import opened Wrappers

  /** One rendition of a logo; only its `src` is read. */
  datatype Format = Format(src: string)

  /** A logo entry. `formats` is optional because the wizard reaches it through
      optional chaining and must survive a response that omits it. */
  datatype Logo = Logo(formats: Option<seq<Format>>)

  /** The brand details record (`BrandDetails` in the component). */
  datatype BrandDetails = BrandDetails(name: string, description: string, logos: Option<seq<Logo>>)

  /** One element of the brand search response; only `domain` is read. */
  datatype SearchItem = SearchItem(domain: string, name: Option<string>)

  /** The logo URL sent with the brief: the `src` of the first format of the
      first logo, when every link of that chain is present. */
  function LogoUrl(details: Option<BrandDetails>): (r: Option<string>)
    ensures r.Some? <==>
      && details.Some?
      && details.value.logos.Some?
      && |details.value.logos.value| > 0
      && details.value.logos.value[0].formats.Some?
      && |details.value.logos.value[0].formats.value| > 0
    ensures r.Some? ==> r.value == details.value.logos.value[0].formats.value[0].src
  {
    match details
    case None => None
    case Some(d) =>
      match d.logos
      case None => None
      case Some(logos) =>
        if |logos| == 0 then None
        else
          match logos[0].formats
          case None => None
          case Some(formats) =>
            if |formats| == 0 then None else Some(formats[0].src)
  }

  /** The suggestion list made from a well-formed search response: the
      domains of the items, one per item, in response order. */
  function Domains(items: seq<SearchItem>): (r: seq<string>)
    ensures |r| == |items|
    ensures forall i :: 0 <= i < |items| ==> r[i] == items[i].domain
  {
    if |items| == 0 then [] else [items[0].domain] + Domains(items[1..])
  }

  /** What the step-2 logo slot shows. */
  datatype LogoView = NoImage | Image(src: string) | RenderCrash

  /** The logo slot AS WRITTEN: it checks that `logos` and `logos[0]` exist but
      then reads `formats[0].src` unguarded, so a first logo whose `formats`
      is absent or empty makes the render throw. */
  function RenderedLogoAsWritten(details: BrandDetails): (v: LogoView)
    ensures v.RenderCrash? <==>
      && details.logos.Some?
      && |details.logos.value| > 0
      && (details.logos.value[0].formats.None? || |details.logos.value[0].formats.value| == 0)
  {
    match details.logos
    case None => NoImage
    case Some(logos) =>
      if |logos| == 0 then NoImage
      else
        match logos[0].formats
        case None => RenderCrash
        case Some(formats) => if |formats| == 0 then RenderCrash else Image(formats[0].src)
  }

  /** The logo slot as evidently intended: the same optional chain as the
      logo URL of the brief, so the slot never throws and shows exactly the
      logo the brief will carry. */
  function RenderedLogo(details: BrandDetails): (v: LogoView)
    ensures !v.RenderCrash?
    ensures v.Image? <==> LogoUrl(Some(details)).Some?
    ensures v.Image? ==> v.src == LogoUrl(Some(details)).value
  {
    match LogoUrl(Some(details))
    case None => NoImage
    case Some(src) => Image(src)
  }

  /** A brand whose only logo has an empty `formats` list crashes the
      as-written render but not the corrected one. */
  lemma EmptyFormatsCrashesRender()
    ensures RenderedLogoAsWritten(BrandDetails("Acme", "", Some([Logo(Some([]))]))).RenderCrash?
    ensures RenderedLogo(BrandDetails("Acme", "", Some([Logo(Some([]))]))) == NoImage
  {
  }

  /** Where the as-written render does not crash it agrees with the corrected one. */
  lemma RenderAgreesWhenNoCrash(details: BrandDetails)
    requires !RenderedLogoAsWritten(details).RenderCrash?
    ensures RenderedLogoAsWritten(details) == RenderedLogo(details)
  {
  }
}
