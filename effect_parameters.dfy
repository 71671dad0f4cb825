/** The effect parameters: immutable descriptions of one requested effect.
    In the source `IEffectParameters` is an open interface; this model closes
    it over the three variants the engine knows and one catch-all. */
module Effects {
  import opened Int32
  import opened GrayscaleModeParameters

  datatype EffectParameters =
    /** `ResizeEffectParameters(width, height)`; neither value is validated. */
    | Resize(width: int32, height: int32)
    /** `GrayscaleEffectParameters`, a struct without fields. */
    | Grayscale
    /** `GrayscaleModeEffectParameters`, contributed by the ImageSharp provider. */
    | GrayscaleWithMode(grayscale: GrayscaleModeEffectParameters)
    /** Any other implementation of `IEffectParameters` (a test fake, the
        misspelt `GrayscalEffectParameters`, a third provider's parameter). */
    | Unrecognized(tag: nat)

  /** `GrayscaleEffectParameters.Default`. */
  const GrayscaleDefault: EffectParameters := Grayscale
}
