/** The decision logic of voicevox_core's `Synthesizer`: how the requested
    acceleration mode becomes the GPU flag, the option records and their
    defaults and conversions, and how `create_accent_phrases`, `audio_query`
    and `tts` route text through the synthesis engine.

    The engine itself (`SynthesisEngine`, the kana notation's parser and
    printer, device detection and the inference core) is not part of this
    model: each of its operations is an arbitrary function supplied with the
    engine, so that every property below holds whatever the engine does. */
module VoiceSynthesizer {
  import opened Wrappers
  import opened CoreTypes

  newtype u16 = x: int | 0 <= x < 0x1_0000
  newtype u32 = x: int | 0 <= x < 0x1_0000_0000
  newtype byte = x: int | 0 <= x < 0x100

  /** `StyleId::new(u32)`. */
  type StyleId = u32

  // ---------------------------------------------------------------------
  // Options
  // ---------------------------------------------------------------------

  /** `SynthesisOptions`: the options of `synthesis`. */
  datatype SynthesisOptions = SynthesisOptions(enableInterrogativeUpspeak: bool)

  /** `AccentPhrasesOptions`: `kana` makes the text AquesTalk-style kana notation. */
  datatype AccentPhrasesOptions = AccentPhrasesOptions(kana: bool)

  /** `AudioQueryOptions`: `kana` makes the text AquesTalk-style kana notation. */
  datatype AudioQueryOptions = AudioQueryOptions(kana: bool)

  /** `TtsOptions`: the options of `tts`, which carries both of the above. */
  datatype TtsOptions = TtsOptions(kana: bool, enableInterrogativeUpspeak: bool)

  /** `AccelerationMode`: the requested hardware acceleration. */
  datatype AccelerationMode = Auto | Cpu | Gpu

  /** `InitializeOptions`: the options of `new_with_initialize`. */
  datatype InitializeOptions = InitializeOptions(
    accelerationMode: AccelerationMode,
    cpuNumThreads: u16,
    loadAllModels: bool)

  /** `SynthesisOptions::from(&TtsOptions)`: keeps the upspeak flag of a `tts` call. */
  function SynthesisOptionsFromTts(options: TtsOptions): (r: SynthesisOptions)
    ensures r.enableInterrogativeUpspeak == options.enableInterrogativeUpspeak
  {
    SynthesisOptions(options.enableInterrogativeUpspeak)
  }

  /** `AudioQueryOptions::from(&TtsOptions)`: keeps the kana flag of a `tts` call. */
  function AudioQueryOptionsFromTts(options: TtsOptions): (r: AudioQueryOptions)
    ensures r.kana == options.kana
  {
    AudioQueryOptions(options.kana)
  }

  /** The two conversions out of `TtsOptions` each read one field only, and
      together they lose nothing: the options can be rebuilt from the two
      records `tts` hands on. */
  lemma TtsOptionsSplit(o: TtsOptions, o': TtsOptions)
    ensures TtsOptions(AudioQueryOptionsFromTts(o).kana,
                       SynthesisOptionsFromTts(o).enableInterrogativeUpspeak) == o
    ensures o.kana == o'.kana ==> AudioQueryOptionsFromTts(o) == AudioQueryOptionsFromTts(o')
    ensures o.enableInterrogativeUpspeak == o'.enableInterrogativeUpspeak ==>
              SynthesisOptionsFromTts(o) == SynthesisOptionsFromTts(o')
  {
  }

  /** `TtsOptions::default()`: upspeak on, plain Japanese text. */
  function DefaultTtsOptions(): (r: TtsOptions)
    ensures r.enableInterrogativeUpspeak && !r.kana
  {
    TtsOptions(kana := false, enableInterrogativeUpspeak := true)
  }

  /** The derived `AccentPhrasesOptions::default()`: plain Japanese text. */
  function DefaultAccentPhrasesOptions(): (r: AccentPhrasesOptions)
    ensures !r.kana
  {
    AccentPhrasesOptions(false)
  }

  /** The derived `AudioQueryOptions::default()`: plain Japanese text. */
  function DefaultAudioQueryOptions(): (r: AudioQueryOptions)
    ensures !r.kana
  {
    AudioQueryOptions(false)
  }

  /** `AccelerationMode::default()`, the `#[default]` variant. */
  function DefaultAccelerationMode(): (r: AccelerationMode)
    ensures r == Auto
  {
    Auto
  }

  /** The derived `InitializeOptions::default()`: every field at its own default. */
  function DefaultInitializeOptions(): (r: InitializeOptions)
    ensures r.accelerationMode == DefaultAccelerationMode() == Auto
    ensures r.cpuNumThreads == 0
    ensures !r.loadAllModels
  {
    InitializeOptions(DefaultAccelerationMode(), 0, false)
  }

  /** The default options of `tts` agree with the defaults of the two
      operations it is made of. */
  lemma DefaultTtsOptionsConvert()
    ensures AudioQueryOptionsFromTts(DefaultTtsOptions()) == DefaultAudioQueryOptions()
    ensures SynthesisOptionsFromTts(DefaultTtsOptions()) == SynthesisOptions(true)
  {
  }

  // ---------------------------------------------------------------------
  // The engine as the synthesizer sees it
  // ---------------------------------------------------------------------

  /** One mora, with the fields the synthesizer's tests read. */
  datatype MoraModel = MoraModel(
    text: string,
    consonant: Option<string>,
    consonantLength: Option<real>,
    vowel: string,
    vowelLength: real,
    pitch: real)

  /** An accent phrase: its moras and the position of its accent. */
  datatype AccentPhraseModel = AccentPhraseModel(moras: seq<MoraModel>, accent: nat)

  /** `AudioQueryModel`, in the argument order of `AudioQueryModel::new`. */
  datatype AudioQueryModel = AudioQueryModel(
    accentPhrases: seq<AccentPhraseModel>,
    speedScale: real,
    pitchScale: real,
    intonationScale: real,
    volumeScale: real,
    prePhonemeLength: real,
    postPhonemeLength: real,
    outputSamplingRate: nat,
    outputStereo: bool,
    kana: Option<string>)

  /** `SupportedDevices`: the detected CUDA and DirectML availability. */
  datatype SupportedDevices = SupportedDevices(cuda: bool, dml: bool)

  /** The synthesis engine, given by what its operations return. `parseKana`
      and `createKana` are the engine module's free functions `parse_kana`
      (whose error becomes `Error::ParseKana`) and `create_kana`. */
  datatype SynthesisEngine = SynthesisEngine(
    isOpenjtalkDictLoaded: bool,
    parseKana: string -> Result<seq<AccentPhraseModel>, Detail>,
    createKana: seq<AccentPhraseModel> -> string,
    replaceMoraData: (seq<AccentPhraseModel>, StyleId) -> Result<seq<AccentPhraseModel>, Error>,
    createAccentPhrases: (string, StyleId) -> Result<seq<AccentPhraseModel>, Error>,
    synthesisWaveFormat: (AudioQueryModel, StyleId, bool) -> Result<seq<byte>, Error>,
    defaultSamplingRate: nat)

  /** `Synthesizer`: both fields are fixed by `new_with_initialize`. */
  datatype Synthesizer = Synthesizer(synthesisEngine: SynthesisEngine, useGpu: bool)

  // ---------------------------------------------------------------------
  // Construction
  // ---------------------------------------------------------------------

  /** The `use_gpu` match of `new_with_initialize`. `supportedDevices` is
      what `SupportedDevices::create()` would return, and `directml` is the
      `directml` build feature, which picks the device flag that `Auto` reads. */
  function ResolveUseGpu(mode: AccelerationMode, supportedDevices: Result<SupportedDevices, Error>,
                         directml: bool): (r: Result<bool, Error>)
    ensures mode == Cpu ==> r == Ok(false)
    ensures mode == Gpu ==> r == Ok(true)
    ensures mode == Auto && supportedDevices.Err? ==> r == Err(supportedDevices.error)
    ensures mode == Auto && supportedDevices.Ok? ==>
              r == Ok(if directml then supportedDevices.value.dml else supportedDevices.value.cuda)
  {
    match mode
    case Auto =>
      var devices :- supportedDevices;
      Ok(if directml then devices.dml else devices.cuda)
    case Cpu => Ok(false)
    case Gpu => Ok(true)
  }

  /** Only `Auto` queries the devices: the other modes resolve the same way
      whatever the query would have returned, and they never fail. */
  lemma ResolveUseGpuQueriesOnlyForAuto(mode: AccelerationMode, d1: Result<SupportedDevices, Error>,
                                        d2: Result<SupportedDevices, Error>, directml: bool)
    ensures mode != Auto ==> ResolveUseGpu(mode, d1, directml) == ResolveUseGpu(mode, d2, directml)
    ensures ResolveUseGpu(mode, d1, directml).Err? <==> mode == Auto && d1.Err?
  {
  }

  /** `Synthesizer::new_with_initialize`. `initializeEngine(useGpu, threads,
      loadAll)` stands for `InferenceCore::new_with_initialize` followed by
      `SynthesisEngine::new` with the given OpenJTalk. */
  function NewWithInitialize(options: InitializeOptions, supportedDevices: Result<SupportedDevices, Error>,
                             directml: bool,
                             initializeEngine: (bool, u16, bool) -> Result<SynthesisEngine, Error>)
    : (r: Result<Synthesizer, Error>)
    ensures var useGpu := ResolveUseGpu(options.accelerationMode, supportedDevices, directml);
            && (useGpu.Err? ==> r.Err? && r.error == useGpu.error)
            && (useGpu.Ok? ==>
                  var engine := initializeEngine(useGpu.value, options.cpuNumThreads, options.loadAllModels);
                  && r.Ok? == engine.Ok?
                  && (r.Err? ==> r.error == engine.error)
                  && (r.Ok? ==> r.value.useGpu == useGpu.value && r.value.synthesisEngine == engine.value))
  {
    var useGpu :- ResolveUseGpu(options.accelerationMode, supportedDevices, directml);
    var engine :- initializeEngine(useGpu, options.cpuNumThreads, options.loadAllModels);
    Ok(Synthesizer(engine, useGpu))
  }

  /** `is_gpu_mode`. */
  function IsGpuMode(synthesizer: Synthesizer): bool
  {
    synthesizer.useGpu
  }

  /** A constructed synthesizer reports exactly the flag its acceleration
      mode resolved to: `false` for `Cpu`, `true` for `Gpu`, the detected
      device's flag for `Auto`. */
  lemma IsGpuModeAfterConstruction(options: InitializeOptions, supportedDevices: Result<SupportedDevices, Error>,
                                   directml: bool,
                                   initializeEngine: (bool, u16, bool) -> Result<SynthesisEngine, Error>)
    requires NewWithInitialize(options, supportedDevices, directml, initializeEngine).Ok?
    ensures var s := NewWithInitialize(options, supportedDevices, directml, initializeEngine).value;
            && IsGpuMode(s) == ResolveUseGpu(options.accelerationMode, supportedDevices, directml).value
            && (options.accelerationMode == Cpu ==> !IsGpuMode(s))
            && (options.accelerationMode == Gpu ==> IsGpuMode(s))
            && (options.accelerationMode == Auto ==>
                  supportedDevices.Ok? &&
                  IsGpuMode(s) == if directml then supportedDevices.value.dml else supportedDevices.value.cuda)
  {
  }

  /** The inference core is always initialized with the resolved flag and
      the caller's thread count and model-loading choice. */
  lemma NewWithInitializePassesOptions(options: InitializeOptions, supportedDevices: Result<SupportedDevices, Error>,
                                       directml: bool,
                                       initializeEngine: (bool, u16, bool) -> Result<SynthesisEngine, Error>)
    requires ResolveUseGpu(options.accelerationMode, supportedDevices, directml).Ok?
    requires initializeEngine(ResolveUseGpu(options.accelerationMode, supportedDevices, directml).value,
                              options.cpuNumThreads, options.loadAllModels).Ok?
    ensures NewWithInitialize(options, supportedDevices, directml, initializeEngine).Ok?
    ensures NewWithInitialize(options, supportedDevices, directml, initializeEngine).value.synthesisEngine
            == initializeEngine(ResolveUseGpu(options.accelerationMode, supportedDevices, directml).value,
                                options.cpuNumThreads, options.loadAllModels).value
  {
  }

  // ---------------------------------------------------------------------
  // Pipeline operations
  // ---------------------------------------------------------------------

  /** `Synthesizer::synthesis`: forwards to the engine's wave synthesis. */
  function Synthesis(synthesizer: Synthesizer, audioQuery: AudioQueryModel, styleId: StyleId,
                     options: SynthesisOptions): (r: Result<seq<byte>, Error>)
    ensures r == synthesizer.synthesisEngine.synthesisWaveFormat(audioQuery, styleId,
                                                                 options.enableInterrogativeUpspeak)
  {
    synthesizer.synthesisEngine.synthesisWaveFormat(audioQuery, styleId, options.enableInterrogativeUpspeak)
  }

  /** `synthesis` consults the engine's wave synthesis only: replacing the
      dictionary flag or any of the text-side operations leaves it unchanged. */
  lemma SynthesisUsesOnlyWaveFormat(s: Synthesizer, audioQuery: AudioQueryModel, styleId: StyleId,
                                    options: SynthesisOptions, dictLoaded: bool,
                                    parse: string -> Result<seq<AccentPhraseModel>, Detail>,
                                    analysis: (string, StyleId) -> Result<seq<AccentPhraseModel>, Error>,
                                    replace: (seq<AccentPhraseModel>, StyleId) -> Result<seq<AccentPhraseModel>, Error>)
    ensures var e := s.synthesisEngine;
            Synthesis(s.(synthesisEngine := e.(isOpenjtalkDictLoaded := dictLoaded, parseKana := parse,
                                               createAccentPhrases := analysis, replaceMoraData := replace)),
                      audioQuery, styleId, options)
            == Synthesis(s, audioQuery, styleId, options)
  {
  }

  /** `Synthesizer::create_accent_phrases`. Without the OpenJTalk dictionary
      it fails before anything else; otherwise kana text is parsed and given
      mora data by the engine, and plain text goes to the engine whole. */
  function CreateAccentPhrases(synthesizer: Synthesizer, text: string, styleId: StyleId,
                               options: AccentPhrasesOptions): (r: Result<seq<AccentPhraseModel>, Error>)
    ensures var engine := synthesizer.synthesisEngine;
            && (!engine.isOpenjtalkDictLoaded ==> r == Err(NotLoadedOpenjtalkDict))
            && (engine.isOpenjtalkDictLoaded && options.kana && engine.parseKana(text).Err? ==>
                  r == Err(ParseKana(engine.parseKana(text).error)))
            && (engine.isOpenjtalkDictLoaded && options.kana && engine.parseKana(text).Ok? ==>
                  r == engine.replaceMoraData(engine.parseKana(text).value, styleId))
            && (engine.isOpenjtalkDictLoaded && !options.kana ==>
                  r == engine.createAccentPhrases(text, styleId))
  {
    var engine := synthesizer.synthesisEngine;
    if !engine.isOpenjtalkDictLoaded then
      Err(NotLoadedOpenjtalkDict)
    else if options.kana then
      match engine.parseKana(text)
      case Err(e) => Err(ParseKana(e))
      case Ok(phrases) => engine.replaceMoraData(phrases, styleId)
    else
      engine.createAccentPhrases(text, styleId)
  }

  /** Without the dictionary the result is the same error for every text,
      style and kana flag, and whatever the engine's operations would do:
      nothing is parsed and the engine is not consulted. */
  lemma CreateAccentPhrasesGate(s1: Synthesizer, s2: Synthesizer, text1: string, text2: string,
                                style1: StyleId, style2: StyleId,
                                options1: AccentPhrasesOptions, options2: AccentPhrasesOptions)
    requires !s1.synthesisEngine.isOpenjtalkDictLoaded && !s2.synthesisEngine.isOpenjtalkDictLoaded
    ensures CreateAccentPhrases(s1, text1, style1, options1) == CreateAccentPhrases(s2, text2, style2, options2)
            == Err(NotLoadedOpenjtalkDict)
  {
  }

  /** The two branches each use only their own engine operations: kana mode
      never calls the engine's text analysis, and plain mode never parses kana
      nor replaces mora data. */
  lemma CreateAccentPhrasesBranchesIndependent(s: Synthesizer, text: string, styleId: StyleId,
                                               analysis: (string, StyleId) -> Result<seq<AccentPhraseModel>, Error>,
                                               parse: string -> Result<seq<AccentPhraseModel>, Detail>,
                                               replace: (seq<AccentPhraseModel>, StyleId) -> Result<seq<AccentPhraseModel>, Error>)
    ensures var e := s.synthesisEngine;
            CreateAccentPhrases(s.(synthesisEngine := e.(createAccentPhrases := analysis)), text, styleId,
                                AccentPhrasesOptions(true))
            == CreateAccentPhrases(s, text, styleId, AccentPhrasesOptions(true))
    ensures var e := s.synthesisEngine;
            CreateAccentPhrases(s.(synthesisEngine := e.(parseKana := parse, replaceMoraData := replace)), text,
                                styleId, AccentPhrasesOptions(false))
            == CreateAccentPhrases(s, text, styleId, AccentPhrasesOptions(false))
  {
  }

  /** The fixed values of a query that `audio_query` builds from `phrases`:
      neutral speed, pitch, intonation and volume, 0.1 s of silence before
      and after, the engine's default sampling rate, mono output, and the
      phrases printed in kana notation. */
  predicate IsFreshQuery(q: AudioQueryModel, phrases: seq<AccentPhraseModel>, engine: SynthesisEngine)
  {
    && q.accentPhrases == phrases
    && q.speedScale == 1.0
    && q.pitchScale == 0.0
    && q.intonationScale == 1.0
    && q.volumeScale == 1.0
    && q.prePhonemeLength == 0.1
    && q.postPhonemeLength == 0.1
    && q.outputSamplingRate == engine.defaultSamplingRate
    && !q.outputStereo
    && q.kana == Some(engine.createKana(phrases))
  }

  /** `IsFreshQuery` leaves no field open: it determines the query. */
  lemma FreshQueryIsUnique(q1: AudioQueryModel, q2: AudioQueryModel, phrases: seq<AccentPhraseModel>,
                           engine: SynthesisEngine)
    requires IsFreshQuery(q1, phrases, engine) && IsFreshQuery(q2, phrases, engine)
    ensures q1 == q2
  {
  }

  /** `Synthesizer::audio_query`: the accent phrases of the same text with
      the same kana flag, wrapped in a freshly defaulted query; a failure of
      the phrase creation is returned as it is and no query is built. */
  function AudioQuery(synthesizer: Synthesizer, text: string, styleId: StyleId,
                      options: AudioQueryOptions): (r: Result<AudioQueryModel, Error>)
    ensures var phrases := CreateAccentPhrases(synthesizer, text, styleId, AccentPhrasesOptions(options.kana));
            && r.Ok? == phrases.Ok?
            && (r.Err? ==> r.error == phrases.error)
            && (r.Ok? ==> IsFreshQuery(r.value, phrases.value, synthesizer.synthesisEngine))
  {
    var accentPhrases :- CreateAccentPhrases(synthesizer, text, styleId, AccentPhrasesOptions(options.kana));
    var kana := synthesizer.synthesisEngine.createKana(accentPhrases);
    Ok(AudioQueryModel(accentPhrases, 1.0, 0.0, 1.0, 1.0, 0.1, 0.1,
                       synthesizer.synthesisEngine.defaultSamplingRate, false, Some(kana)))
  }

  /** `Synthesizer::tts`: `audio_query` with the kana flag, then `synthesis`
      of that query with the upspeak flag. */
  function Tts(synthesizer: Synthesizer, text: string, styleId: StyleId,
               options: TtsOptions): (r: Result<seq<byte>, Error>)
    ensures var query := AudioQuery(synthesizer, text, styleId, AudioQueryOptions(options.kana));
            && (query.Err? ==> r == Err(query.error))
            && (query.Ok? ==>
                  r == synthesizer.synthesisEngine.synthesisWaveFormat(query.value, styleId,
                                                                       options.enableInterrogativeUpspeak))
  {
    var audioQuery :- AudioQuery(synthesizer, text, styleId, AudioQueryOptionsFromTts(options));
    Synthesis(synthesizer, audioQuery, styleId, SynthesisOptionsFromTts(options))
  }

  /** When the query cannot be built, `tts` returns that error whatever the
      engine's wave synthesis would have done: synthesis is never reached. */
  lemma TtsSkipsSynthesisOnQueryError(s: Synthesizer, text: string, styleId: StyleId, options: TtsOptions,
                                      wave: (AudioQueryModel, StyleId, bool) -> Result<seq<byte>, Error>)
    requires AudioQuery(s, text, styleId, AudioQueryOptions(options.kana)).Err?
    ensures Tts(s.(synthesisEngine := s.synthesisEngine.(synthesisWaveFormat := wave)), text, styleId, options)
            == Tts(s, text, styleId, options)
            == Err(AudioQuery(s, text, styleId, AudioQueryOptions(options.kana)).error)
  {
  }

  /** End to end: without the dictionary `tts` fails with
      `NotLoadedOpenjtalkDict`, and a malformed kana text fails with the
      parser's error, in both cases before any engine call. */
  lemma TtsEarlyErrors(s: Synthesizer, text: string, styleId: StyleId, options: TtsOptions)
    ensures !s.synthesisEngine.isOpenjtalkDictLoaded ==> Tts(s, text, styleId, options) == Err(NotLoadedOpenjtalkDict)
    ensures s.synthesisEngine.isOpenjtalkDictLoaded && options.kana && s.synthesisEngine.parseKana(text).Err? ==>
              Tts(s, text, styleId, options) == Err(ParseKana(s.synthesisEngine.parseKana(text).error))
  {
  }

  /** End to end on success: `tts` synthesizes the freshly defaulted query
      over the phrases the engine produced, with the caller's upspeak flag. */
  lemma TtsSynthesizesFreshQuery(s: Synthesizer, text: string, styleId: StyleId, options: TtsOptions)
    requires CreateAccentPhrases(s, text, styleId, AccentPhrasesOptions(options.kana)).Ok?
    ensures var phrases := CreateAccentPhrases(s, text, styleId, AccentPhrasesOptions(options.kana)).value;
            exists q :: IsFreshQuery(q, phrases, s.synthesisEngine) &&
              Tts(s, text, styleId, options)
              == s.synthesisEngine.synthesisWaveFormat(q, styleId, options.enableInterrogativeUpspeak)
  {
    var q := AudioQuery(s, text, styleId, AudioQueryOptions(options.kana)).value;
    assert IsFreshQuery(q, CreateAccentPhrases(s, text, styleId, AccentPhrasesOptions(options.kana)).value,
                        s.synthesisEngine);
  }
}
