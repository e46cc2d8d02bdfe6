# VOICEVOX core: synthesizer decision logic and C API translation, in Dafny

VOICEVOX core is a Japanese text-to-speech engine. Its `Synthesizer` is built
from an acceleration mode. It turns text, or AquesTalk-style kana notation,
into accent phrases and then into an audio query (phrases plus global
scales). It then synthesizes a waveform from the query. The C API wraps the
Rust API: it turns every error into a `VoicevoxResultCode`, and it converts
enums and option records between their core and C forms.

This project models two pieces:

- `voice_synthesizer.dfy` (module `VoiceSynthesizer`) covers the synthesizer's
  own decisions:
  - how `AccelerationMode` becomes the `use_gpu` flag;
  - the option records, their defaults and conversions;
  - the dictionary gate and kana branch of `create_accent_phrases`;
  - the fixed defaults that `audio_query` puts into a fresh query;
  - `tts` as `audio_query` followed by `synthesis`.
- `helpers.dfy` (module `CApiHelpers`) covers the C API's translation layer:
  - `into_result_code`;
  - the enum and option conversions in both directions;
  - the two C-side `Default` implementations.
- `core_types.dfy` (module `CoreTypes`) declares the crate's `Error` and
  `UserDictWordType`. The variants of `Error` are exactly those that the
  exhaustive match in `into_result_code` names.
- `wrappers.dfy` (module `Wrappers`) holds `Option` and `Result`. Dafny's
  `:-` operator stands for Rust's `?`.

The synthesis engine is not part of this model. That includes
`SynthesisEngine`, `parse_kana`, `create_kana`, `SupportedDevices::create`
and `InferenceCore::new_with_initialize`. The record `SynthesisEngine` holds
each engine operation as an arbitrary total function, and the dictionary
state as a flag. So every property of the synthesizer holds whatever the
engine does. `NewWithInitialize` takes three extra parameters:

- the result of the device query;
- the `directml` build feature;
- a function that stands for creating the inference core and the engine.

Floating-point scales are modelled as `real`, and byte buffers as sequences
of a `byte` newtype.

Two facts of the construction code are worth stating on their own:

- `Gpu` resolves to `use_gpu = true` with no check that a GPU is present.
  A missing GPU can only surface as an error from the inference core, which
  is a parameter here.
- `cpu_num_threads` goes to `InferenceCore::new_with_initialize` unchanged.
  The model says nothing about what 0 threads means.

## Model

| member | source | states |
|---|---|---|
| `VoiceSynthesizer.SynthesisOptionsFromTts` | crates/voicevox_core/src/voice_synthesizer.rs:20-26 | the synthesis options of a `tts` call carry its upspeak flag |
| `VoiceSynthesizer.AudioQueryOptionsFromTts` | crates/voicevox_core/src/voice_synthesizer.rs:46-50 | the audio query options of a `tts` call carry its kana flag |
| `VoiceSynthesizer.TtsOptionsSplit` | crates/voicevox_core/src/voice_synthesizer.rs:20-50 | each conversion reads only its own field, and together the two converted records rebuild the original `TtsOptions` |
| `VoiceSynthesizer.DefaultTtsOptions` | crates/voicevox_core/src/voice_synthesizer.rs:67-74 | the default has upspeak on and kana off |
| `VoiceSynthesizer.DefaultAccentPhrasesOptions` | crates/voicevox_core/src/voice_synthesizer.rs:31-35 | the derived default has kana off |
| `VoiceSynthesizer.DefaultAudioQueryOptions` | crates/voicevox_core/src/voice_synthesizer.rs:40-44 | the derived default has kana off |
| `VoiceSynthesizer.DefaultAccelerationMode` | crates/voicevox_core/src/voice_synthesizer.rs:77-86 | the default mode is `Auto` |
| `VoiceSynthesizer.DefaultInitializeOptions` | crates/voicevox_core/src/voice_synthesizer.rs:91-96 | the default is `Auto`, 0 CPU threads and no eager model loading |
| `VoiceSynthesizer.DefaultTtsOptionsConvert` | crates/voicevox_core/src/voice_synthesizer.rs:20-74 | the `tts` default converts to the audio query default and to upspeak on |
| `VoiceSynthesizer.ResolveUseGpu` | crates/voicevox_core/src/voice_synthesizer.rs:139-154 | `Cpu` gives false and `Gpu` gives true; `Auto` gives the detected DirectML or CUDA flag (by build feature), or the device query's error |
| `VoiceSynthesizer.ResolveUseGpuQueriesOnlyForAuto` | crates/voicevox_core/src/voice_synthesizer.rs:139-154 | for `Cpu` and `Gpu` the result does not depend on the device query; resolution fails exactly when `Auto` meets a failing query |
| `VoiceSynthesizer.NewWithInitialize` | crates/voicevox_core/src/voice_synthesizer.rs:133-168 | a resolution error is returned before the engine is built; after that, construction fails exactly when engine initialization fails, with its error; on success the stored flag is the resolved one and the stored engine is the one built |
| `VoiceSynthesizer.NewWithInitializePassesOptions` | crates/voicevox_core/src/voice_synthesizer.rs:156-167 | when resolution and initialization succeed, construction succeeds, and the engine is built from the resolved flag, the thread count and the load-all flag |
| `VoiceSynthesizer.IsGpuModeAfterConstruction` | crates/voicevox_core/src/voice_synthesizer.rs:139-173 | `IsGpuMode` (`is_gpu_mode`) of a constructed synthesizer is the resolved flag: false for `Cpu`, true for `Gpu`, the detected device flag for `Auto` |
| `VoiceSynthesizer.Synthesis` | crates/voicevox_core/src/voice_synthesizer.rs:211-220 | the query, the style and exactly the upspeak flag go to the engine's wave synthesis, and its result comes back unchanged |
| `VoiceSynthesizer.SynthesisUsesOnlyWaveFormat` | crates/voicevox_core/src/voice_synthesizer.rs:211-220 | `synthesis` does not depend on the dictionary flag, the kana parser, the text analysis or mora replacement; only wave synthesis is consulted |
| `VoiceSynthesizer.CreateAccentPhrases` | crates/voicevox_core/src/voice_synthesizer.rs:374-392 | without the dictionary the result is `NotLoadedOpenjtalkDict`; in kana mode a parse error becomes `ParseKana` with the parser's payload, and a parsed text gets mora data from the engine; otherwise the engine analyses the text |
| `VoiceSynthesizer.CreateAccentPhrasesGate` | crates/voicevox_core/src/voice_synthesizer.rs:380-382 | without the dictionary every text, style, kana flag and engine gives the same `NotLoadedOpenjtalkDict` error |
| `VoiceSynthesizer.CreateAccentPhrasesBranchesIndependent` | crates/voicevox_core/src/voice_synthesizer.rs:383-391 | kana mode does not depend on the engine's text analysis; plain mode depends on neither the kana parser nor mora replacement |
| `VoiceSynthesizer.FreshQueryIsUnique` | crates/voicevox_core/src/voice_synthesizer.rs:535-547 | the fixed query defaults leave no field open: they determine the query |
| `VoiceSynthesizer.AudioQuery` | crates/voicevox_core/src/voice_synthesizer.rs:526-548 | it succeeds exactly when phrase creation with the same kana flag succeeds; the phrases are kept with speed 1, pitch 0, intonation 1, volume 1, 0.1 s before and after, the default rate, mono and their kana text; on failure the phrase error is returned |
| `VoiceSynthesizer.Tts` | crates/voicevox_core/src/voice_synthesizer.rs:556-567 | a query error is returned as it is; otherwise the result is the engine's wave synthesis of the query with the caller's upspeak flag |
| `VoiceSynthesizer.TtsSkipsSynthesisOnQueryError` | crates/voicevox_core/src/voice_synthesizer.rs:562-566 | when the query fails, `tts` returns that error whatever wave synthesis would do |
| `VoiceSynthesizer.TtsEarlyErrors` | crates/voicevox_core/src/voice_synthesizer.rs:380-385 | end to end, `tts` without the dictionary fails with `NotLoadedOpenjtalkDict`, and bad kana fails with the parser's `ParseKana` error |
| `VoiceSynthesizer.TtsSynthesizesFreshQuery` | crates/voicevox_core/src/voice_synthesizer.rs:526-567 | when phrase creation succeeds, `tts` is the wave synthesis of a freshly defaulted query over those phrases |
| `CApiHelpers.IntoResultCode` | crates/voicevox_core_c_api/src/helpers.rs:20-55 | the code is OK if and only if the result is `Ok(())`; an error's code reads back to exactly that error's variant |
| `CApiHelpers.ResultCodeIgnoresPayload` | crates/voicevox_core_c_api/src/helpers.rs:25-54 | an error's code depends only on its variant, not on its payload |
| `CApiHelpers.ResultCodeDistinguishesVariants` | crates/voicevox_core_c_api/src/helpers.rs:25-54 | two errors share a code if and only if they are of the same variant |
| `CApiHelpers.LoadModelResultCodes` | crates/voicevox_core_c_api/src/helpers.rs:29-35 | model-loading errors get one of five distinct codes, chosen by `context()` kind, each in both directions |
| `CApiHelpers.AccelerationModeToC` | crates/voicevox_core_c_api/src/helpers.rs:116-125 | `AccelerationModeFromC` undoes the conversion to C |
| `CApiHelpers.AccelerationModeRoundTrip` | crates/voicevox_core_c_api/src/helpers.rs:116-136 | `AccelerationModeToC` and `AccelerationModeFromC` (helpers.rs:127-136) are inverse bijections |
| `CApiHelpers.UserDictWordTypeFromC` | crates/voicevox_core_c_api/src/helpers.rs:198-208 | `UserDictWordTypeToC` undoes the conversion from C |
| `CApiHelpers.UserDictWordTypeRoundTrip` | crates/voicevox_core_c_api/src/helpers.rs:198-226 | `UserDictWordTypeFromC` and `UserDictWordTypeToC` (helpers.rs:210-226) are inverse over the five word types |
| `CApiHelpers.AudioQueryOptionsToC` | crates/voicevox_core_c_api/src/helpers.rs:86-95 | `AudioQueryOptionsFromC` undoes the conversion to C |
| `CApiHelpers.AccentPhrasesOptionsToC` | crates/voicevox_core_c_api/src/helpers.rs:97-106 | `AccentPhrasesOptionsFromC` undoes the conversion to C |
| `CApiHelpers.SynthesisOptionsFromC` | crates/voicevox_core_c_api/src/helpers.rs:108-114 | the core synthesis options carry the C upspeak flag |
| `CApiHelpers.TtsOptionsToC` | crates/voicevox_core_c_api/src/helpers.rs:159-175 | `TtsOptionsFromC` undoes the conversion to C |
| `CApiHelpers.OptionsRoundTrip` | crates/voicevox_core_c_api/src/helpers.rs:86-175 | the audio query, accent phrase and tts option conversions round-trip in both directions: `AudioQueryOptionsToC`/`AudioQueryOptionsFromC`, `AccentPhrasesOptionsToC`/`AccentPhrasesOptionsFromC`, `TtsOptionsToC`/`TtsOptionsFromC` |
| `CApiHelpers.InitializeOptionsFromC` | crates/voicevox_core_c_api/src/helpers.rs:149-157 | the mode goes through its conversion; threads and load-all are copied |
| `CApiHelpers.InitializeOptionsFromCInjective` | crates/voicevox_core_c_api/src/helpers.rs:149-157 | distinct C initialization options convert to distinct core options |
| `CApiHelpers.DefaultVoicevoxInitializeOptions` | crates/voicevox_core_c_api/src/helpers.rs:138-147 | the C default is AUTO, 0 threads and no eager loading, and converting it back gives the core default |
| `CApiHelpers.DefaultVoicevoxSynthesisOptions` | crates/voicevox_core_c_api/src/helpers.rs:177-184 | the C default takes its upspeak flag from the core `TtsOptions` default, so upspeak is on |

## Left out

- The engine's operations are arbitrary functions, not models. This covers text analysis, mora data replacement, wave synthesis, and kana parsing and printing. So the kana round trip that the synthesizer's tests suggest is not stated.
- `predict_duration`, `predict_intonation` and `decode` are left out. They forward to the ONNX inference core, which is not part of this model, and they work on `f32` tensors.
- `load_voice_model`, `unload_voice_model`, `is_loaded_voice_model`, `is_loaded_model_by_style_id` and `metas` are left out. The model registry's state and its uniqueness checks live in the inference core, which is not part of this model.
- `replace_mora_data`, `replace_phoneme_length` and `replace_mora_pitch` on `Synthesizer` are left out. Each forwards to the engine in one line, and the engine is not modelled.
- `list_windows_video_cards` is left out. It is Windows-only FFI that only logs.
- `display_error` is left out because it prints to standard error. So `into_result_code_with_error` is represented by `IntoResultCode` alone.
- The JSON helpers `audio_query_model_to_json` and `accent_phrases_to_json` are left out. They call `serde_json`.
- `ensure_utf8` and `try_into_word` are left out. They read raw C strings, and `UserDictWord::new` is not part of this model.
- `c_impls.rs` is left out. It holds async wrappers, `CString` building and JSON serialisation.
- Async and concurrency are left out. Every `.await` is an ordinary call.
- The numeric values of the `VoicevoxResultCode` constants are left out, because the C API's declaration of that enum is not part of this model. Result codes are compared only as constants.
- Error payloads are opaque strings. Only the variant and the model-loading `context()` kind matter here.
- `AccentPhraseModel` and `MoraModel` have only the fields the synthesizer's tests read. The engine's model definitions are not part of this model.
- `SynthesisEngine::DEFAULT_SAMPLING_RATE` is the engine record's `defaultSamplingRate` field, because its value is declared outside the modelled files.
- Scales are modelled as exact `real` values. The source's `f32` rounding of 0.1 is not modelled.
