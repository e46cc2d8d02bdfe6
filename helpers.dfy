/** The C API's translation layer: the result code an error becomes, and the
    conversions between the core's enums and option records and their C
    counterparts. */
module CApiHelpers {
  import opened Wrappers
  import opened CoreTypes
  import VS = VoiceSynthesizer

  // ---------------------------------------------------------------------
  // Errors and result codes
  // ---------------------------------------------------------------------

  /** `CApiError`: a core error, or one the C side detects itself. */
  datatype CApiError =
    | RustApi(rustError: Error)
    | InvalidUtf8Input
    | InvalidAudioQuery(detail: Detail)
    | InvalidAccentPhrase(detail: Detail)
    | InvalidUuid(detail: Detail)

  /** `CApiResult<()>`. */
  type CApiResult = Result<(), CApiError>

  /** The `VoicevoxResultCode` constants that the translation produces. */
  datatype VoicevoxResultCode =
    | VOICEVOX_RESULT_OK
    | VOICEVOX_RESULT_NOT_LOADED_OPENJTALK_DICT_ERROR
    | VOICEVOX_RESULT_GPU_SUPPORT_ERROR
    | VOICEVOX_RESULT_OPEN_ZIP_FILE_ERROR
    | VOICEVOX_RESULT_READ_ZIP_ENTRY_ERROR
    | VOICEVOX_RESULT_MODEL_ALREADY_LOADED_ERROR
    | VOICEVOX_RESULT_STYLE_ALREADY_LOADED_ERROR
    | VOICEVOX_RESULT_INVALID_MODEL_DATA_ERROR
    | VOICEVOX_RESULT_GET_SUPPORTED_DEVICES_ERROR
    | VOICEVOX_RESULT_INVALID_STYLE_ID_ERROR
    | VOICEVOX_RESULT_INVALID_MODEL_ID_ERROR
    | VOICEVOX_RESULT_INFERENCE_ERROR
    | VOICEVOX_RESULT_EXTRACT_FULL_CONTEXT_LABEL_ERROR
    | VOICEVOX_RESULT_UNLOADED_MODEL_ERROR
    | VOICEVOX_RESULT_PARSE_KANA_ERROR
    | VOICEVOX_RESULT_LOAD_USER_DICT_ERROR
    | VOICEVOX_RESULT_SAVE_USER_DICT_ERROR
    | VOICEVOX_RESULT_UNKNOWN_USER_DICT_WORD_ERROR
    | VOICEVOX_RESULT_USE_USER_DICT_ERROR
    | VOICEVOX_RESULT_INVALID_USER_DICT_WORD_ERROR
    | VOICEVOX_RESULT_INVALID_UTF8_INPUT_ERROR
    | VOICEVOX_RESULT_INVALID_AUDIO_QUERY_ERROR
    | VOICEVOX_RESULT_INVALID_ACCENT_PHRASE_ERROR
    | VOICEVOX_RESULT_INVALID_UUID_ERROR

  /** The variant of an error with every payload blanked out: two errors
      are of the same variant (and, for a model-loading error, of the same
      `context()` kind) exactly when they blank to the same value. */
  function Variant(e: CApiError): CApiError
  {
    match e
    case RustApi(err) =>
      RustApi(match err
              case NotLoadedOpenjtalkDict => NotLoadedOpenjtalkDict
              case GpuSupport => GpuSupport
              case LoadModel(le) =>
                LoadModel(LoadModelError("", match le.context
                                             case OpenZipFile => OpenZipFile
                                             case ReadZipEntry(_) => ReadZipEntry("")
                                             case ModelAlreadyLoaded(_) => ModelAlreadyLoaded("")
                                             case StyleAlreadyLoaded(_) => StyleAlreadyLoaded("")
                                             case InvalidModelData => InvalidModelData))
              case GetSupportedDevices(_) => GetSupportedDevices("")
              case InvalidStyleId(_) => InvalidStyleId("")
              case InvalidModelId(_) => InvalidModelId("")
              case InferenceFailed => InferenceFailed
              case ExtractFullContextLabel(_) => ExtractFullContextLabel("")
              case UnloadedModel(_) => UnloadedModel("")
              case ParseKana(_) => ParseKana("")
              case LoadUserDict(_) => LoadUserDict("")
              case SaveUserDict(_) => SaveUserDict("")
              case UnknownWord(_) => UnknownWord("")
              case UseUserDict(_) => UseUserDict("")
              case InvalidWord(_) => InvalidWord(""))
    case InvalidUtf8Input => InvalidUtf8Input
    case InvalidAudioQuery(_) => InvalidAudioQuery("")
    case InvalidAccentPhrase(_) => InvalidAccentPhrase("")
    case InvalidUuid(_) => InvalidUuid("")
  }

  /** The error variant a result code stands for, or `None` for success:
      the reading of a result code back into the error it reports. */
  function ErrorOfResultCode(code: VoicevoxResultCode): Option<CApiError>
  {
    match code
    case VOICEVOX_RESULT_OK => None
    case VOICEVOX_RESULT_NOT_LOADED_OPENJTALK_DICT_ERROR => Some(RustApi(NotLoadedOpenjtalkDict))
    case VOICEVOX_RESULT_GPU_SUPPORT_ERROR => Some(RustApi(GpuSupport))
    case VOICEVOX_RESULT_OPEN_ZIP_FILE_ERROR => Some(RustApi(LoadModel(LoadModelError("", OpenZipFile))))
    case VOICEVOX_RESULT_READ_ZIP_ENTRY_ERROR => Some(RustApi(LoadModel(LoadModelError("", ReadZipEntry("")))))
    case VOICEVOX_RESULT_MODEL_ALREADY_LOADED_ERROR =>
      Some(RustApi(LoadModel(LoadModelError("", ModelAlreadyLoaded("")))))
    case VOICEVOX_RESULT_STYLE_ALREADY_LOADED_ERROR =>
      Some(RustApi(LoadModel(LoadModelError("", StyleAlreadyLoaded("")))))
    case VOICEVOX_RESULT_INVALID_MODEL_DATA_ERROR => Some(RustApi(LoadModel(LoadModelError("", InvalidModelData))))
    case VOICEVOX_RESULT_GET_SUPPORTED_DEVICES_ERROR => Some(RustApi(GetSupportedDevices("")))
    case VOICEVOX_RESULT_INVALID_STYLE_ID_ERROR => Some(RustApi(InvalidStyleId("")))
    case VOICEVOX_RESULT_INVALID_MODEL_ID_ERROR => Some(RustApi(InvalidModelId("")))
    case VOICEVOX_RESULT_INFERENCE_ERROR => Some(RustApi(InferenceFailed))
    case VOICEVOX_RESULT_EXTRACT_FULL_CONTEXT_LABEL_ERROR => Some(RustApi(ExtractFullContextLabel("")))
    case VOICEVOX_RESULT_UNLOADED_MODEL_ERROR => Some(RustApi(UnloadedModel("")))
    case VOICEVOX_RESULT_PARSE_KANA_ERROR => Some(RustApi(ParseKana("")))
    case VOICEVOX_RESULT_LOAD_USER_DICT_ERROR => Some(RustApi(LoadUserDict("")))
    case VOICEVOX_RESULT_SAVE_USER_DICT_ERROR => Some(RustApi(SaveUserDict("")))
    case VOICEVOX_RESULT_UNKNOWN_USER_DICT_WORD_ERROR => Some(RustApi(UnknownWord("")))
    case VOICEVOX_RESULT_USE_USER_DICT_ERROR => Some(RustApi(UseUserDict("")))
    case VOICEVOX_RESULT_INVALID_USER_DICT_WORD_ERROR => Some(RustApi(InvalidWord("")))
    case VOICEVOX_RESULT_INVALID_UTF8_INPUT_ERROR => Some(InvalidUtf8Input)
    case VOICEVOX_RESULT_INVALID_AUDIO_QUERY_ERROR => Some(InvalidAudioQuery(""))
    case VOICEVOX_RESULT_INVALID_ACCENT_PHRASE_ERROR => Some(InvalidAccentPhrase(""))
    case VOICEVOX_RESULT_INVALID_UUID_ERROR => Some(InvalidUuid(""))
  }

  /** `into_result_code`: success is the OK code and nothing else is; an
      error's code can be read back into the error's variant, so the code
      names that variant exactly. */
  function IntoResultCode(result: CApiResult): (code: VoicevoxResultCode)
    ensures code == VOICEVOX_RESULT_OK <==> result.Ok?
    ensures result.Err? ==> ErrorOfResultCode(code) == Some(Variant(result.error))
  {
    match result
    case Ok(()) => VOICEVOX_RESULT_OK
    case Err(RustApi(NotLoadedOpenjtalkDict)) => VOICEVOX_RESULT_NOT_LOADED_OPENJTALK_DICT_ERROR
    case Err(RustApi(GpuSupport)) => VOICEVOX_RESULT_GPU_SUPPORT_ERROR
    case Err(RustApi(LoadModel(err))) =>
      (match err.context
       case OpenZipFile => VOICEVOX_RESULT_OPEN_ZIP_FILE_ERROR
       case ReadZipEntry(_) => VOICEVOX_RESULT_READ_ZIP_ENTRY_ERROR
       case ModelAlreadyLoaded(_) => VOICEVOX_RESULT_MODEL_ALREADY_LOADED_ERROR
       case StyleAlreadyLoaded(_) => VOICEVOX_RESULT_STYLE_ALREADY_LOADED_ERROR
       case InvalidModelData => VOICEVOX_RESULT_INVALID_MODEL_DATA_ERROR)
    case Err(RustApi(GetSupportedDevices(_))) => VOICEVOX_RESULT_GET_SUPPORTED_DEVICES_ERROR
    case Err(RustApi(InvalidStyleId(_))) => VOICEVOX_RESULT_INVALID_STYLE_ID_ERROR
    case Err(RustApi(InvalidModelId(_))) => VOICEVOX_RESULT_INVALID_MODEL_ID_ERROR
    case Err(RustApi(InferenceFailed)) => VOICEVOX_RESULT_INFERENCE_ERROR
    case Err(RustApi(ExtractFullContextLabel(_))) => VOICEVOX_RESULT_EXTRACT_FULL_CONTEXT_LABEL_ERROR
    case Err(RustApi(UnloadedModel(_))) => VOICEVOX_RESULT_UNLOADED_MODEL_ERROR
    case Err(RustApi(ParseKana(_))) => VOICEVOX_RESULT_PARSE_KANA_ERROR
    case Err(RustApi(LoadUserDict(_))) => VOICEVOX_RESULT_LOAD_USER_DICT_ERROR
    case Err(RustApi(SaveUserDict(_))) => VOICEVOX_RESULT_SAVE_USER_DICT_ERROR
    case Err(RustApi(UnknownWord(_))) => VOICEVOX_RESULT_UNKNOWN_USER_DICT_WORD_ERROR
    case Err(RustApi(UseUserDict(_))) => VOICEVOX_RESULT_USE_USER_DICT_ERROR
    case Err(RustApi(InvalidWord(_))) => VOICEVOX_RESULT_INVALID_USER_DICT_WORD_ERROR
    case Err(InvalidUtf8Input) => VOICEVOX_RESULT_INVALID_UTF8_INPUT_ERROR
    case Err(InvalidAudioQuery(_)) => VOICEVOX_RESULT_INVALID_AUDIO_QUERY_ERROR
    case Err(InvalidAccentPhrase(_)) => VOICEVOX_RESULT_INVALID_ACCENT_PHRASE_ERROR
    case Err(InvalidUuid(_)) => VOICEVOX_RESULT_INVALID_UUID_ERROR
  }

  /** The code of an error does not depend on its payload. */
  lemma ResultCodeIgnoresPayload(e: CApiError)
    ensures IntoResultCode(Err(e)) == IntoResultCode(Err(Variant(e)))
  {
  }

  /** Two errors get the same code if and only if they are of the same
      variant: no two variants share a code, and payloads never matter. */
  lemma ResultCodeDistinguishesVariants(e1: CApiError, e2: CApiError)
    ensures IntoResultCode(Err(e1)) == IntoResultCode(Err(e2)) <==> Variant(e1) == Variant(e2)
  {
  }

  /** A model-loading error is coded by its `context()` kind, and the five
      kinds get five different codes. */
  lemma LoadModelResultCodes(err: LoadModelError)
    ensures var code := IntoResultCode(Err(RustApi(LoadModel(err))));
            && (err.context.OpenZipFile? <==> code == VOICEVOX_RESULT_OPEN_ZIP_FILE_ERROR)
            && (err.context.ReadZipEntry? <==> code == VOICEVOX_RESULT_READ_ZIP_ENTRY_ERROR)
            && (err.context.ModelAlreadyLoaded? <==> code == VOICEVOX_RESULT_MODEL_ALREADY_LOADED_ERROR)
            && (err.context.StyleAlreadyLoaded? <==> code == VOICEVOX_RESULT_STYLE_ALREADY_LOADED_ERROR)
            && (err.context.InvalidModelData? <==> code == VOICEVOX_RESULT_INVALID_MODEL_DATA_ERROR)
  {
  }

  // ---------------------------------------------------------------------
  // Enum conversions
  // ---------------------------------------------------------------------

  /** `VoicevoxAccelerationMode`. */
  datatype VoicevoxAccelerationMode =
    | VOICEVOX_ACCELERATION_MODE_AUTO
    | VOICEVOX_ACCELERATION_MODE_CPU
    | VOICEVOX_ACCELERATION_MODE_GPU

  /** `VoicevoxAccelerationMode::from(AccelerationMode)`: undone by the converse. */
  function AccelerationModeToC(mode: VS.AccelerationMode): (r: VoicevoxAccelerationMode)
    ensures AccelerationModeFromC(r) == mode
  {
    match mode
    case Auto => VOICEVOX_ACCELERATION_MODE_AUTO
    case Cpu => VOICEVOX_ACCELERATION_MODE_CPU
    case Gpu => VOICEVOX_ACCELERATION_MODE_GPU
  }

  /** `AccelerationMode::from(VoicevoxAccelerationMode)`. */
  function AccelerationModeFromC(mode: VoicevoxAccelerationMode): VS.AccelerationMode
  {
    match mode
    case VOICEVOX_ACCELERATION_MODE_AUTO => VS.Auto
    case VOICEVOX_ACCELERATION_MODE_CPU => VS.Cpu
    case VOICEVOX_ACCELERATION_MODE_GPU => VS.Gpu
  }

  /** The two acceleration mode conversions are inverse bijections. */
  lemma AccelerationModeRoundTrip(mode: VS.AccelerationMode, c: VoicevoxAccelerationMode)
    ensures AccelerationModeFromC(AccelerationModeToC(mode)) == mode
    ensures AccelerationModeToC(AccelerationModeFromC(c)) == c
  {
  }

  /** `VoicevoxUserDictWordType`. */
  datatype VoicevoxUserDictWordType =
    | VOICEVOX_USER_DICT_WORD_TYPE_PROPER_NOUN
    | VOICEVOX_USER_DICT_WORD_TYPE_COMMON_NOUN
    | VOICEVOX_USER_DICT_WORD_TYPE_VERB
    | VOICEVOX_USER_DICT_WORD_TYPE_ADJECTIVE
    | VOICEVOX_USER_DICT_WORD_TYPE_SUFFIX

  /** `UserDictWordType::from(VoicevoxUserDictWordType)`: undone by the converse. */
  function UserDictWordTypeFromC(value: VoicevoxUserDictWordType): (r: UserDictWordType)
    ensures UserDictWordTypeToC(r) == value
  {
    match value
    case VOICEVOX_USER_DICT_WORD_TYPE_PROPER_NOUN => ProperNoun
    case VOICEVOX_USER_DICT_WORD_TYPE_COMMON_NOUN => CommonNoun
    case VOICEVOX_USER_DICT_WORD_TYPE_VERB => Verb
    case VOICEVOX_USER_DICT_WORD_TYPE_ADJECTIVE => Adjective
    case VOICEVOX_USER_DICT_WORD_TYPE_SUFFIX => Suffix
  }

  /** `VoicevoxUserDictWordType::from(UserDictWordType)`. */
  function UserDictWordTypeToC(value: UserDictWordType): VoicevoxUserDictWordType
  {
    match value
    case ProperNoun => VOICEVOX_USER_DICT_WORD_TYPE_PROPER_NOUN
    case CommonNoun => VOICEVOX_USER_DICT_WORD_TYPE_COMMON_NOUN
    case Verb => VOICEVOX_USER_DICT_WORD_TYPE_VERB
    case Adjective => VOICEVOX_USER_DICT_WORD_TYPE_ADJECTIVE
    case Suffix => VOICEVOX_USER_DICT_WORD_TYPE_SUFFIX
  }

  /** The two word type conversions are inverse over the five word types. */
  lemma UserDictWordTypeRoundTrip(value: UserDictWordType, c: VoicevoxUserDictWordType)
    ensures UserDictWordTypeFromC(UserDictWordTypeToC(value)) == value
    ensures UserDictWordTypeToC(UserDictWordTypeFromC(c)) == c
  {
  }

  // ---------------------------------------------------------------------
  // Option conversions
  // ---------------------------------------------------------------------

  /** `VoicevoxAudioQueryOptions`. */
  datatype VoicevoxAudioQueryOptions = VoicevoxAudioQueryOptions(kana: bool)

  /** `VoicevoxAccentPhrasesOptions`. */
  datatype VoicevoxAccentPhrasesOptions = VoicevoxAccentPhrasesOptions(kana: bool)

  /** `VoicevoxSynthesisOptions`. */
  datatype VoicevoxSynthesisOptions = VoicevoxSynthesisOptions(enableInterrogativeUpspeak: bool)

  /** `VoicevoxTtsOptions`. */
  datatype VoicevoxTtsOptions = VoicevoxTtsOptions(kana: bool, enableInterrogativeUpspeak: bool)

  /** `VoicevoxInitializeOptions`. */
  datatype VoicevoxInitializeOptions = VoicevoxInitializeOptions(
    accelerationMode: VoicevoxAccelerationMode,
    cpuNumThreads: VS.u16,
    loadAllModels: bool)

  /** `VoicevoxAudioQueryOptions::from(AudioQueryOptions)`: undone by the converse. */
  function AudioQueryOptionsToC(options: VS.AudioQueryOptions): (r: VoicevoxAudioQueryOptions)
    ensures AudioQueryOptionsFromC(r) == options
  {
    VoicevoxAudioQueryOptions(options.kana)
  }

  /** `AudioQueryOptions::from(VoicevoxAudioQueryOptions)`. */
  function AudioQueryOptionsFromC(options: VoicevoxAudioQueryOptions): VS.AudioQueryOptions
  {
    VS.AudioQueryOptions(options.kana)
  }

  /** `VoicevoxAccentPhrasesOptions::from(AccentPhrasesOptions)`: undone by the converse. */
  function AccentPhrasesOptionsToC(options: VS.AccentPhrasesOptions): (r: VoicevoxAccentPhrasesOptions)
    ensures AccentPhrasesOptionsFromC(r) == options
  {
    VoicevoxAccentPhrasesOptions(options.kana)
  }

  /** `AccentPhrasesOptions::from(VoicevoxAccentPhrasesOptions)`. */
  function AccentPhrasesOptionsFromC(options: VoicevoxAccentPhrasesOptions): VS.AccentPhrasesOptions
  {
    VS.AccentPhrasesOptions(options.kana)
  }

  /** `SynthesisOptions::from(VoicevoxSynthesisOptions)`: keeps the upspeak
      flag, so distinct C options give distinct core options. */
  function SynthesisOptionsFromC(options: VoicevoxSynthesisOptions): (r: VS.SynthesisOptions)
    ensures r.enableInterrogativeUpspeak == options.enableInterrogativeUpspeak
  {
    VS.SynthesisOptions(options.enableInterrogativeUpspeak)
  }

  /** `VoicevoxTtsOptions::from(TtsOptions)`: undone by the converse. */
  function TtsOptionsToC(options: VS.TtsOptions): (r: VoicevoxTtsOptions)
    ensures TtsOptionsFromC(r) == options
  {
    VoicevoxTtsOptions(options.kana, options.enableInterrogativeUpspeak)
  }

  /** `TtsOptions::from(VoicevoxTtsOptions)`. */
  function TtsOptionsFromC(options: VoicevoxTtsOptions): VS.TtsOptions
  {
    VS.TtsOptions(options.kana, options.enableInterrogativeUpspeak)
  }

  /** The option conversions round-trip in both directions, every field kept. */
  lemma OptionsRoundTrip(aq: VS.AudioQueryOptions, caq: VoicevoxAudioQueryOptions,
                         ap: VS.AccentPhrasesOptions, cap: VoicevoxAccentPhrasesOptions,
                         tts: VS.TtsOptions, ctts: VoicevoxTtsOptions)
    ensures AudioQueryOptionsFromC(AudioQueryOptionsToC(aq)) == aq
    ensures AudioQueryOptionsToC(AudioQueryOptionsFromC(caq)) == caq
    ensures AccentPhrasesOptionsFromC(AccentPhrasesOptionsToC(ap)) == ap
    ensures AccentPhrasesOptionsToC(AccentPhrasesOptionsFromC(cap)) == cap
    ensures TtsOptionsFromC(TtsOptionsToC(tts)) == tts
    ensures TtsOptionsToC(TtsOptionsFromC(ctts)) == ctts
  {
  }

  /** `InitializeOptions::from(VoicevoxInitializeOptions)`: the mode through
      its conversion, the other fields copied. */
  function InitializeOptionsFromC(value: VoicevoxInitializeOptions): (r: VS.InitializeOptions)
    ensures AccelerationModeToC(r.accelerationMode) == value.accelerationMode
    ensures r.cpuNumThreads == value.cpuNumThreads
    ensures r.loadAllModels == value.loadAllModels
  {
    VS.InitializeOptions(AccelerationModeFromC(value.accelerationMode), value.cpuNumThreads, value.loadAllModels)
  }

  /** No two C initialization options convert to the same core options. */
  lemma InitializeOptionsFromCInjective(a: VoicevoxInitializeOptions, b: VoicevoxInitializeOptions)
    ensures InitializeOptionsFromC(a) == InitializeOptionsFromC(b) ==> a == b
  {
  }

  /** `VoicevoxInitializeOptions::default()`: built from the core default,
      and converting it back gives that default again. */
  function DefaultVoicevoxInitializeOptions(): (r: VoicevoxInitializeOptions)
    ensures InitializeOptionsFromC(r) == VS.DefaultInitializeOptions()
    ensures r == VoicevoxInitializeOptions(VOICEVOX_ACCELERATION_MODE_AUTO, 0, false)
  {
    var options := VS.DefaultInitializeOptions();
    VoicevoxInitializeOptions(AccelerationModeToC(options.accelerationMode), options.cpuNumThreads,
                              options.loadAllModels)
  }

  /** `VoicevoxSynthesisOptions::default()`: the upspeak flag of the core
      `TtsOptions` default, which is on. */
  function DefaultVoicevoxSynthesisOptions(): (r: VoicevoxSynthesisOptions)
    ensures SynthesisOptionsFromC(r) == VS.SynthesisOptionsFromTts(VS.DefaultTtsOptions())
    ensures r.enableInterrogativeUpspeak
  {
    VoicevoxSynthesisOptions(VS.DefaultTtsOptions().enableInterrogativeUpspeak)
  }
}
