/** The voicevox_core types that the modelled code uses but that are declared
    outside voice_synthesizer.rs: the crate's error type and the user
    dictionary's word type. The error variants are exactly those that the
    exhaustive match of the C API's result-code translation names. */
module CoreTypes {

  /** The payload of an error variant (a file name, a model id, a style id,
      an underlying library error). Nothing in the modelled code inspects
      one, so it is kept opaque. */
  type Detail = string

  /** `LoadModelErrorKind`: what went wrong while loading a voice model. */
  datatype LoadModelErrorKind =
    | OpenZipFile
    | ReadZipEntry(detail: Detail)
    | ModelAlreadyLoaded(detail: Detail)
    | StyleAlreadyLoaded(detail: Detail)
    | InvalidModelData

  /** `LoadModelError`: the model file's path and the kind, read by `context()`. */
  datatype LoadModelError = LoadModelError(path: Detail, context: LoadModelErrorKind)

  /** `voicevox_core::Error`. */
  datatype Error =
    | NotLoadedOpenjtalkDict
    | GpuSupport
    | LoadModel(loadError: LoadModelError)
    | GetSupportedDevices(detail: Detail)
    | InvalidStyleId(detail: Detail)
    | InvalidModelId(detail: Detail)
    | InferenceFailed
    | ExtractFullContextLabel(detail: Detail)
    | UnloadedModel(detail: Detail)
    | ParseKana(detail: Detail)
    | LoadUserDict(detail: Detail)
    | SaveUserDict(detail: Detail)
    | UnknownWord(detail: Detail)
    | UseUserDict(detail: Detail)
    | InvalidWord(detail: Detail)

  /** `voicevox_core::UserDictWordType`: the part of speech of a user dictionary word. */
  datatype UserDictWordType = ProperNoun | CommonNoun | Verb | Adjective | Suffix
}
