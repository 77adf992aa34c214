/** The render of the transformed-image panel: a pure function of its props.
    Its two callbacks, which write the parent's `isTransforming` flag, are
    events of the form's `Session`. */
module TransformedImage {
  import opened Records

  /** A JavaScript string is truthy when it is present and non-empty. */
  predicate Truthy(s: Option<string>)
  {
    s.Some? && s.value != ""
  }

  const DefaultAlt := "Transformed image"

  /** What the panel shows: the placeholder, or the rendered image with its
      source, alt text, config and whether the spinner overlay is on. */
  datatype View =
    | Placeholder
    | Transformed(src: string, alt: string, config: Transformations, spinner: bool)

  /** `image.title || 'Transformed image'`. */
  function AltText(image: ImageRecord): (alt: string)
    ensures alt != ""
    ensures Truthy(image.title) ==> alt == image.title.value
    ensures !Truthy(image.title) ==> alt == DefaultAlt
  {
    if Truthy(image.title) then image.title.value else DefaultAlt
  }

  /** The panel for the given image, config and transforming flag. */
  function Render(image: Option<ImageRecord>, config: Option<Transformations>, isTransforming: bool): (v: View)
    ensures v.Transformed? ==> v.src != "" && v.alt != ""
    ensures v.Transformed? ==> Some(v.src) == Fields(image).publicId
  {
    if image.Some? && Truthy(image.value.publicId) && config.Some? then
      Transformed(image.value.publicId.value, AltText(image.value), config.value, isTransforming)
    else
      Placeholder
  }

  /** The spinner overlay is on. */
  predicate Spinner(v: View)
  {
    v.Transformed? && v.spinner
  }

  /** The spinner is shown exactly when the image is shown and a
      transformation is in flight; the flag alone never shows it. */
  lemma SpinnerIff(image: Option<ImageRecord>, config: Option<Transformations>, isTransforming: bool)
    ensures Spinner(Render(image, config, isTransforming)) <==>
            Truthy(Fields(image).publicId) && config.Some? && isTransforming
    ensures !isTransforming ==> !Spinner(Render(image, config, isTransforming))
  {
  }

  /** The flag changes only the spinner: the rest of the view is the same
      whichever value it has. */
  lemma FlagOnlyMovesSpinner(image: Option<ImageRecord>, config: Option<Transformations>)
    ensures Render(image, config, true).Placeholder? == Render(image, config, false).Placeholder?
    ensures Render(image, config, true).Transformed? ==>
            Render(image, config, true) == Render(image, config, false).(spinner := true)
  {
  }
}
