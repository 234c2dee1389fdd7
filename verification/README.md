# wandler orchestration core in Dafny

A model of the orchestration core of wandler, a library that runs transformer language models in
the browser on top of transformers.js. The repository carries two generations of the same code:
the older `packages/core` and the newer `packages/wandler`. The model keeps them apart, one Dafny
module per source file, with `Core*` and `Wandler*` module names. The `packages/react` chat hook is
modelled in `UseChat`.

What is modelled:

- **Providers and registries.** These cover the provider configuration merge shared by both
  `base.ts` files, the base providers, and the Qwen, DeepSeek and transformers providers. They
  include the DeepSeek `<think>` extraction and the role parsing of its chat template. The
  registries map a model id to a provider.
- **Request preparation.** This covers the message assembly and validation, the generation
  defaults and their merge, the chat template, and the device check.
- **Loading.** `loadModel` covers both packages, on the main thread and in a worker.
- **The transformers wrappers.** These are the runtime calls and their key-value cache slot, with
  the cache kept or cleared on success and on failure.
- **Generation and streaming.** `generateText`, `generate` and `streamText` are modelled on the
  main thread and through a worker, with their retry loop. The streams are objects whose state
  changes as tokens are enqueued.
- **Workers.** The worker bridge (request ids, settlement of pending requests), the worker managers
  (one worker per model id) and both worker scripts (`onmessage` dispatch, the frames posted and
  the module-level model and cache).
- **The `useChat` hook.** Its list updates are pure functions, and the hook itself is a class whose
  methods are the hook's callbacks.

The transformers.js runtime, the browser `Worker`, `navigator.gpu`, `Date.now` and `uuidv4` are
not modelled. Each operation takes what they would answer as a parameter (a tokenizer result, a
runtime outcome, the tokens a streamer emits, a fresh id, the time). The properties are then
proved for every such answer.

Shared value types are in `Types`, the request shapes in `Request`, and the worker frames in
`Protocol`. String and sequence helpers are in `Strings` and `Seqs`, and the retry loop shared by
the generation modules is in `Retry`.

## Model

| member | source | states |
|---|---|---|
| ProviderConfig.ConfigForModel | packages/wandler/providers/base.ts:21-36 | per-key precedence: override over base for top-level fields, key by key for `generationConfig` and `performance` |
| ProviderConfig.ConfigWithoutOverride | packages/wandler/providers/base.ts:21-36 | a path without a `modelConfigs` entry gets the base configuration unchanged |
| ProviderConfig.GenerationConfigFor | packages/wandler/providers/base.ts:38-40 | each key comes from the override when present there, else from the base |
| ProviderConfig.PerformanceFor | packages/wandler/providers/base.ts:42-44 | each performance field comes from the override when present, else from the base |
| Registry.FindEntry | packages/wandler/providers/registry.ts:39 | `find` returns the first entry whose pattern matches, and no earlier entry matches |
| Registry.FindEntryUnique | packages/wandler/providers/registry.ts:39 | a matching entry with no earlier match is the one found |
| Registry.MismatchAt | packages/wandler/providers/registry.ts:14-32 | a `/^prefix/` pattern fails on a path that differs from the prefix at some position |
| WandlerRegistry.GetProvider | packages/wandler/providers/registry.ts:38-41 | a fresh instance of the first matching entry's class, or of `TransformersProvider` when none matches |
| WandlerRegistry.QwenIds | packages/wandler/providers/registry.ts:12-20 | ids starting with `onnx-community/qwen` or `qwen/`, in any letter case, get `QwenProvider` |
| WandlerRegistry.StabilityIds | packages/wandler/providers/registry.ts:29-32 | ids starting with `stabilityai/` get `TransformersProvider` |
| WandlerRegistry.DeepseekExact | packages/wandler/providers/registry.ts:25-28 | `deepseek/…` gets `DeepseekProvider` |
| WandlerRegistry.DeepseekCaseSensitive | packages/wandler/providers/registry.ts:25-28 | `DeepSeek/…` matches no entry and falls back to `TransformersProvider` |
| WandlerRegistry.OnnxDeepseekIds | packages/wandler/providers/registry.ts:21-24 | ids starting with `onnx-community/deepseek`, in any letter case, get `DeepseekProvider` |
| CoreRegistry.GetProvider | packages/core/providers/registry.ts:28-31 | the stored instance of the first matching entry, else a new `TransformersProvider` |
| CoreRegistry.NeverQwen | packages/core/providers/registry.ts:10-23 | no id is ever given a Qwen provider |
| CoreRegistry.QwenFallsBack | packages/core/providers/registry.ts:10-31 | Qwen ids fall back to a new `TransformersProvider` |
| CoreRegistry.OnnxDeepseekIds | packages/core/providers/registry.ts:11-14 | `onnx-community/deepseek…` ids, any letter case, get the first entry's shared instance |
| CoreRegistry.DeepseekCaseSensitive | packages/core/providers/registry.ts:15-18 | `DeepSeek/…` is not matched by the case-sensitive `deepseek/` entry |
| CoreRegistry.SharedIffMatched | packages/core/providers/registry.ts:28-31 | two lookups return the same instance exactly when the id matches an entry |
| WandlerBase.HandleProgress | packages/wandler/providers/base.ts:46-60 | the callback is called exactly when one is given and the event is `progress`, with the component and the event's file and byte counts |
| WandlerBase.QwenProviderName | packages/wandler/providers/base.ts:99 | the class name `QwenProvider` yields the provider name `qwen` |
| WandlerBase.DeepseekProviderName | packages/wandler/providers/base.ts:99 | the class name `DeepseekProvider` yields `deepseek` |
| WandlerBase.LoadModel | packages/wandler/providers/base.ts:92-107 | a tokenizer error wins over an instance error; success exactly when both hooks succeed, with the id, the derived name and the merged generation config |
| WandlerBase.InheritedLoadFails | packages/wandler/providers/base.ts:84-94 | with the base hooks the load fails with `loadTokenizer not implemented` |
| WandlerQwen.CoderConfig | packages/wandler/providers/qwen.ts:9-40 | the coder model gets 2048 tokens, temperature 0.7, top-p 0.95, dtype `q4f16` and keeps the base repetition penalty |
| WandlerQwen.LoadModel | packages/wandler/providers/qwen.ts:7 | Qwen inherits the base loader hooks, so every load fails with `loadTokenizer not implemented` |
| WandlerQwen.MarkerFrom | packages/wandler/providers/qwen.ts:59-63 | a found role is one of `system`, `user`, `assistant` |
| WandlerQwen.FindRole | packages/wandler/providers/qwen.ts:70-85 | the patterns are tried in order and the first that matches gives the role |
| WandlerQwen.ReadLine | packages/wandler/providers/qwen.ts:65-91 | one loop turn updates `messages`, `currentRole` and `currentContent` as the step function says |
| WandlerQwen.ReadLines | packages/wandler/providers/qwen.ts:52-99 | the loop and the final push produce the specified messages |
| WandlerQwen.ReverseTemplate | packages/wandler/providers/qwen.ts:51-106 | the result is the specified parse, with no reasoning and no sources |
| WandlerQwen.FlushOk | packages/wandler/providers/qwen.ts:74-79 | a flush pushes only well-formed messages |
| WandlerQwen.StepOk | packages/wandler/providers/qwen.ts:65-91 | a loop turn keeps the parse state well formed |
| WandlerQwen.RunOk | packages/wandler/providers/qwen.ts:65-91 | the whole loop keeps the parse state well formed |
| WandlerQwen.ParsedMessagesWellFormed | packages/wandler/providers/qwen.ts:51-106 | every message has a known role and non-empty, trimmed content |
| WandlerQwen.FlushOrder | packages/wandler/providers/qwen.ts:74-79 | a flush keeps the emitted roles a subsequence of the announced roles |
| WandlerQwen.StepOrder | packages/wandler/providers/qwen.ts:65-91 | a loop turn keeps the emitted roles a subsequence of the announced roles |
| WandlerQwen.RunOrder | packages/wandler/providers/qwen.ts:65-91 | the loop keeps the emitted roles a subsequence of the marker lines' roles |
| WandlerQwen.MessagesFollowMarkers | packages/wandler/providers/qwen.ts:51-106 | messages appear in the order of the marker lines, never more messages than markers |
| WandlerQwen.PreambleDropped | packages/wandler/providers/qwen.ts:88-90 | lines before the first marker line do not change the result |
| WandlerQwen.StepWithoutRole | packages/wandler/providers/qwen.ts:88-90 | a non-marker line before any role leaves the state unchanged |
| WandlerQwen.PreambleRun | packages/wandler/providers/qwen.ts:65-91 | running over a preamble of non-marker lines leaves the initial state |
| WandlerDeepseek.DistillConfig | packages/wandler/providers/deepseek.ts:8-39 | the distilled R1 model gets 2048 tokens, temperature 0.7, top-p 0.95, no KV cache and dtype `q4f16` |
| WandlerDeepseek.LoadModel | packages/wandler/providers/deepseek.ts:6 | DeepSeek inherits the base loader hooks, so every load fails with `loadTokenizer not implemented` |
| WandlerDeepseek.SplitMarkers | packages/wandler/providers/deepseek.ts:51 | splitting on the role markers with the captured group gives an odd number of parts with `User` or `Assistant` at every odd index |
| WandlerDeepseek.SplitAtMarker | packages/wandler/providers/deepseek.ts:51-56 | a text starting with a marker splits into an empty first piece, which is then shifted off |
| WandlerDeepseek.RemoveMarkers | packages/wandler/providers/deepseek.ts:73 | removing the markers never lengthens the text, and a text without `<` comes back unchanged |
| WandlerDeepseek.SplitRejoins | packages/wandler/providers/deepseek.ts:51 | the split loses nothing: each role word put back inside `<｜…｜>` between the pieces gives the text again |
| WandlerDeepseek.RemoveKeepsPieces | packages/wandler/providers/deepseek.ts:51-73 | removing the markers leaves exactly the pieces the split puts between them, in order (a marker formed only by the removal stays) |
| WandlerDeepseek.ThinkMatch | packages/wandler/providers/deepseek.ts:64 | the leftmost `<think>` and the first `</think>` after it, or no match when no closing tag follows any opening tag |
| WandlerDeepseek.ReadPair | packages/wandler/providers/deepseek.ts:60-82 | one loop turn updates `messages` and `reasoning` as the pair function says |
| WandlerDeepseek.ReadPairs | packages/wandler/providers/deepseek.ts:59-83 | the loop over pairs produces the specified messages and reasoning |
| WandlerDeepseek.ReverseTemplate | packages/wandler/providers/deepseek.ts:46-90 | the result is the specified parse, with no sources |
| WandlerDeepseek.CleanIsClean | packages/wandler/providers/deepseek.ts:72-75 | cleaned content is trimmed and has no `**` |
| WandlerDeepseek.PairsClean | packages/wandler/providers/deepseek.ts:59-83 | the loop emits only clean, non-empty messages |
| WandlerDeepseek.PieceClean | packages/wandler/providers/deepseek.ts:77-82 | a pair emits a message only when its cleaned content is non-empty |
| WandlerDeepseek.MessagesClean | packages/wandler/providers/deepseek.ts:46-90 | every message has non-empty, trimmed content with no `**` |
| WandlerDeepseek.PairsReasoning | packages/wandler/providers/deepseek.ts:64-69 | reasoning is set by the loop exactly when some assistant pair carries a think block, and is never unset |
| WandlerDeepseek.ReasoningIffThink | packages/wandler/providers/deepseek.ts:46-90 | `reasoning` is set exactly when an assistant piece has a think block; sources are always null |
| WandlerDeepseek.LastThinkIsLast | packages/wandler/providers/deepseek.ts:59-69 | the last think piece is found exactly when some assistant piece has a think block, and no assistant piece after it has one |
| WandlerDeepseek.PairsLastReasoning | packages/wandler/providers/deepseek.ts:59-69 | after the loop, `reasoning` is the trimmed think text of the last assistant piece with a think block, each one overwriting the earlier, else what it was before |
| WandlerDeepseek.ReasoningIsLastThink | packages/wandler/providers/deepseek.ts:46-69 | the parsed `reasoning` is the trimmed think text of the last assistant think block, or null when there is none |
| WandlerDeepseek.PieceMessages | packages/wandler/providers/deepseek.ts:77-82 | a pair adds at most one message, with its lower-cased role |
| WandlerDeepseek.PieceOrder | packages/wandler/providers/deepseek.ts:60-82 | a pair keeps the emitted roles a subsequence of the pairs' roles |
| WandlerDeepseek.PairsOrder | packages/wandler/providers/deepseek.ts:59-83 | the loop keeps the emitted roles a subsequence of the pairs' roles |
| WandlerDeepseek.MessagesInOrder | packages/wandler/providers/deepseek.ts:46-90 | messages follow the order of the pairs, at most one per pair |
| WandlerDeepseek.RolesOfMarkers | packages/wandler/providers/deepseek.ts:51-60 | when parts alternate marker and content, every role read is `user` or `assistant` |
| WandlerDeepseek.MarkedRoles | packages/wandler/providers/deepseek.ts:46-90 | a text starting with a marker yields only `user` and `assistant` messages |
| WandlerTransformersProvider.EveryPathUsesBase | packages/wandler/providers/transformers.ts:7-24 | with no overrides every path gets the base configuration, KV cache on |
| WandlerTransformersProvider.InstanceRequestFor | packages/wandler/providers/transformers.ts:32-39 | dtype and device are the option when given, else the configured value |
| WandlerTransformersProvider.ForcedOptions | packages/wandler/providers/transformers.ts:47-48 | both loaders get dtype `q4f16` and the caller's other options |
| WandlerTransformersProvider.LoadForcesQ4f16 | packages/wandler/providers/transformers.ts:42-49 | `loadModel` always asks for the instance as `q4f16`, whatever dtype the caller gave, on the caller's device, else `auto` |
| WandlerTransformersProvider.LoadModel | packages/wandler/providers/transformers.ts:42-72 | the instance is asked for with the caller's options, the dtype replaced by `q4f16`; success exactly when both loaders succeed; a failure carries one of the loaders' errors; the model is named `transformers` with the merged performance and the base generation config |
| WandlerTransformersProvider.LoadedPerformance | packages/wandler/providers/transformers.ts:54-57 | a loaded model has the KV cache on, no grouped-query attention and dtype `auto` |
| CoreBase.TrackMonotone | packages/core/providers/base.ts:61-68 | the recorded `loaded` of a component never decreases and its `total` never changes |
| CoreBase.TrackFirst | packages/core/providers/base.ts:53-59 | a component seen for the first time starts at 0 loaded, 0 total, raised by a progress event |
| CoreBase.TrackOnlyProgress | packages/core/providers/base.ts:61-68 | `loaded` changes exactly when a `progress` event reports more than recorded, and then becomes that value |
| CoreBase.TrackOthers | packages/core/providers/base.ts:48-74 | other components' records are untouched and none is added or removed |
| CoreBase.ProgressTracker.constructor | packages/core/providers/base.ts:13 | the progress record starts empty |
| CoreBase.ProgressTracker.HandleProgress | packages/core/providers/base.ts:48-74 | the record becomes the tracked update and every event is forwarded to the callback when there is one |
| CoreBase.ReplayNoLoss | packages/core/providers/base.ts:48-74 | over any sequence of events no component is lost and no recorded `loaded` decreases |
| CoreDeepseek.DistillConfig | packages/core/providers/deepseek.ts:7-38 | the base has the KV cache on; the distilled R1 model gets 2048 tokens, temperature 0.7, top-p 0.95, no KV cache and dtype `q4f16` |
| CoreDeepseek.InstanceRequestFor | packages/core/providers/deepseek.ts:49-54 | dtype and device are the option when given, else the configured value |
| CoreDeepseek.LoadModel | packages/core/providers/deepseek.ts:40-70 | a failed capability probe fails the load first, before any load is asked for; otherwise the model load asks for the options' dtype and device, else the configured ones; success exactly when probe, tokenizer and instance succeed, with the probe's capabilities and the merged performance and generation config |
| CoreDeepseek.LoadedKVCache | packages/core/providers/deepseek.ts:17-36 | a loaded model supports the KV cache exactly when it is not the distilled R1 model, whatever the options |
| CoreTransformersProvider.GetGenerationConfig | packages/core/providers/transformers.ts:45-47 | every path gets the same four-key generation config |
| CoreTransformersProvider.GetModelPerformance | packages/core/providers/transformers.ts:49-55 | every path reports KV cache on, no grouped-query attention, dtype `auto` |
| CoreTransformersProvider.InstanceRequestFor | packages/core/providers/transformers.ts:25-30 | dtype and device are always set: the option when given, else `auto` and `webgpu` |
| CoreTransformersProvider.LoadModel | packages/core/providers/transformers.ts:17-43 | a failed probe fails the load first, before any load is asked for; otherwise the model load asks for the options' dtype and device, else `auto` and `webgpu`; success exactly when all three loads succeed, named `transformers` with the detected performance |
| CoreLoad.ProviderFor | packages/core/utils/load.ts:10-31 | the matching entry's stored provider, else a new `TransformersProvider`; never a Qwen provider |
| CoreLoad.LoadModel | packages/core/utils/load.ts:25-33 | the load is the chosen provider's `loadModel` with the same path and the caller's options, or `{}` without them |
| CoreLoad.CallerOptionsReachLoad | packages/core/utils/load.ts:25-33 | once the probe succeeds, the model load asks for the caller's dtype and device when given; without options, `auto`/`webgpu` for the default provider and the configured values for DeepSeek |
| CoreLoad.LoadedIdentity | packages/core/utils/load.ts:25-33 | a loaded model carries the requested id and the chosen provider's name, whatever the options |
| CoreLoad.DeepseekCaseSensitive | packages/core/utils/load.ts:15-18 | `DeepSeek/…` is loaded by a new `TransformersProvider` |
| CoreLoad.LoadFailsIff | packages/core/utils/load.ts:25-33 | the load fails exactly when the probe, the tokenizer or the instance fails |
| WandlerLoad.LoadPerformance | packages/wandler/utils/load.ts:28-33 | the worker gets KV cache off, no grouped-query attention, dtype `auto`, each overridden by the caller's hint when given |
| WandlerLoad.LoadMessage | packages/wandler/utils/load.ts:20-37 | a `load` message for the path with id `load-<time>`, the caller's options minus `onProgress`, and the completed performance |
| WandlerLoad.UseWorker | packages/wandler/utils/load.ts:9 | an explicit `useWorker` decides, else whether the environment can run workers |
| WandlerLoad.ForwardProgress | packages/wandler/utils/load.ts:40-46 | exactly the `progress` frames reach `onProgress`, with their payload |
| WandlerLoad.LoadModel | packages/wandler/utils/load.ts:7-72 | the route taken, the message sent, and the outcome: the worker's model, its error rethrown, or the main-thread load with the caller's options when no worker is used or `fallback` is set after a failure; the instance request is that of the main-thread load, and none when the worker answered |
| WandlerLoad.WorkerLoadsWithoutKV | packages/wandler/utils/load.ts:28-33 | without caller hints the worker loads with the KV cache off |
| WandlerLoad.ExplicitRoute | packages/wandler/utils/load.ts:9 | `useWorker: false` loads on the main thread whatever the environment, and sends nothing |
| WandlerLoad.FallbackOnlyWhenAsked | packages/wandler/utils/load.ts:60-71 | a worker failure is rethrown unless `fallback` is set, and then the main-thread load decides |
| WandlerLoad.CallerOptionsReachLoad | packages/wandler/utils/load.ts:12-71 | on the main thread a transformers model is asked for as `q4f16` on the caller's device, else `auto`; a Qwen or DeepSeek id asks for no instance |
| WandlerLoad.MainThreadQwenFails | packages/wandler/utils/load.ts:12-71 | on the main thread Qwen and DeepSeek ids always fail with `loadTokenizer not implemented` |
| DeviceUtils.SelectBestDevice | packages/wandler/utils/device-utils.ts:27-62 | an explicit device is kept (`q4` for WASM, else `q4f16`); `auto`/`best` pick WebGPU with `q4f16` when an adapter is found, else WASM with `q4` |
| DeviceUtils.SelectionIsConcrete | packages/wandler/utils/device-utils.ts:5-10 | the device handed on is never `auto` or `best` |
| DeviceUtils.ExplicitIgnoresProbe | packages/wandler/utils/device-utils.ts:29-35 | an explicit request does not depend on the hardware |
| DeviceUtils.AutoIsBest | packages/wandler/utils/device-utils.ts:27-62 | `auto` and `best` select the same; without an adapter the result is WASM with `q4` |
| DeviceUtils.WebGpuIffAdapter | packages/wandler/utils/device-utils.ts:37-61 | an open request gets WebGPU exactly when an adapter is found |
| GenerationDefaults.Fill | packages/wandler/utils/generation-defaults.ts:18-24 | the caller's value, else the model's, else the fallback |
| GenerationDefaults.GetGenerationDefaults | packages/wandler/utils/generation-defaults.ts:13-26 | each numeric field follows that precedence with fallbacks 100, 1.0, 1.0, 1.0; `do_sample` is the caller's, else whether temperature or top-p was given |
| GenerationDefaults.NothingGiven | packages/wandler/utils/generation-defaults.ts:13-26 | with nothing given: 100 tokens, temperature 1, top-p 1, greedy, penalty 1 |
| GenerationDefaults.ExplicitDoSampleWins | packages/wandler/utils/generation-defaults.ts:21-22 | an explicit `do_sample` wins over the inference |
| GenerationDefaults.DoSampleIgnoresModel | packages/wandler/utils/generation-defaults.ts:21-22 | the model's settings never change `do_sample` |
| GenerationDefaults.CreateGenerationConfig | packages/wandler/utils/generation-defaults.ts:28-39 | the keys are the defaults, `stop`, `seed` and the extras; an extra key wins, else `stop`/`seed` come from the options and the rest from the defaults |
| GenerationDefaults.CreateWithoutExtras | packages/wandler/utils/generation-defaults.ts:28-39 | without extras the record holds exactly the five defaults, `stop` and `seed` |
| GenerationUtils.Pick | packages/core/utils/generation-utils.ts:24-29 | the caller's value, else the model's, else the fallback; never undefined |
| GenerationUtils.PrepareGenerationConfig | packages/core/utils/generation-utils.ts:19-40 | fallbacks 1024, 1.0, 1.0 and 1.1 behind the caller's and the model's values; sampling exactly when temperature or top-p is given; tool fields exactly for stream options, with `max_steps` defaulting to 1 |
| GenerationUtils.DoSampleIgnoresModel | packages/core/utils/generation-utils.ts:27 | the model's settings never switch sampling on; only the caller's temperature or top-p do |
| GenerationUtils.PenaltyFromFrequency | packages/core/utils/generation-utils.ts:28-29 | the repetition penalty is the caller's `frequencyPenalty` when given |
| GenerationUtils.Defaults | packages/core/utils/generation-utils.ts:19-40 | with nothing given: 1024 tokens, temperature 1, top-p 1, penalty 1.1, greedy |
| GenerationUtils.ValidateGenerationConfig | packages/core/utils/generation-utils.ts:52-68 | passes exactly when no check's comparison holds: `max_new_tokens` is not at most 0, the temperature neither below 0 nor above 2, `top_p` neither below 0 nor above 1, the penalty not below 1, and `max_steps` not below 1, a value that reads as `NaN` making every comparison false; otherwise the message of the first failing check, in that order |
| GenerationUtils.BoundsInclusive | packages/core/utils/generation-utils.ts:56-63 | the range bounds themselves pass |
| GenerationUtils.UndefinedAccepted | packages/core/utils/generation-utils.ts:52-68 | a config with every field undefined passes |
| GenerationUtils.PreparedFromModelValid | packages/core/utils/generation-utils.ts:19-68 | without caller values, model settings that no check rejects give a prepared config that passes validation |
| GenerationUtils.NaNAccepted | packages/core/utils/generation-utils.ts:52-68 | values that read as `NaN` pass every check, since the source throws only when a comparison holds |
| ChatUtils.ExtractMessagesFromText | packages/wandler/utils/chat-utils.ts:9-41 | the loop and final push produce the specified messages |
| ChatUtils.RunRoles | packages/wandler/utils/chat-utils.ts:16-30 | the loop only ever holds one of the three role names |
| ChatUtils.ExtractedRoles | packages/wandler/utils/chat-utils.ts:9-41 | every extracted message is a system, user or assistant message |
| ChatUtils.FlushOrder | packages/wandler/utils/chat-utils.ts:19-25 | a push keeps emitted roles a subsequence of the announced ones |
| ChatUtils.StepOrder | packages/wandler/utils/chat-utils.ts:16-30 | a loop turn keeps emitted roles a subsequence of the role lines |
| ChatUtils.RunOrder | packages/wandler/utils/chat-utils.ts:16-30 | the loop keeps emitted roles a subsequence of the role lines |
| ChatUtils.MessagesFollowRoleLines | packages/wandler/utils/chat-utils.ts:9-41 | messages come out in the order of their role lines, at most one per role line |
| ChatUtils.PreambleDropped | packages/wandler/utils/chat-utils.ts:27-29 | lines before the first role line do not change the result |
| ChatUtils.BlankLineCounts | packages/wandler/utils/chat-utils.ts:19-25 | a role line followed by a blank line gives a message with empty content |
| ChatUtils.TrailingRoleDropped | packages/wandler/utils/chat-utils.ts:33-38 | a role line with nothing after it gives no message |
| ChatUtils.LinesFree | packages/wandler/utils/chat-utils.ts:11 | a written transcript's lines hold no newline, so the split gives them back |
| ChatUtils.RunLines | packages/wandler/utils/chat-utils.ts:16-38 | reading a transcript appends exactly its messages |
| ChatUtils.ExtractRoundTrip | packages/wandler/utils/chat-utils.ts:9-41 | writing messages one role line and one trimmed content line each, then extracting, gives them back |
| ChatUtils.ExtractAssistant | packages/wandler/utils/chat-utils.ts:47-64 | the last message's content when it is an assistant message, else the trimmed text after the last `\nassistant\n`, else the trimmed text |
| ChatUtils.AssistantAnswer | packages/wandler/utils/chat-utils.ts:47-55 | a transcript ending in an assistant message gives back exactly its content |
| MessageUtils.PartTexts | packages/core/utils/message-utils.ts:19-35 | one text per part, in order |
| MessageUtils.ConvertComplexContent | packages/core/utils/message-utils.ts:18-37 | one part gives its own text; no parts give the empty string |
| MessageUtils.ConvertSplits | packages/core/utils/message-utils.ts:18-37 | when no part text has a newline, splitting the result on newlines gives back each part's text |
| MessageUtils.PartLabels | packages/core/utils/message-utils.ts:25-27 | a file shows its MIME type; an image given as bytes shows `binary data` |
| MessageUtils.PrepareOne | packages/core/utils/message-utils.ts:58-61 | the role is kept; text content stays; parts are flattened; missing content stays missing |
| MessageUtils.Leading | packages/core/utils/message-utils.ts:45-53 | one message for a non-empty system and one for a non-empty prompt |
| MessageUtils.Prepare | packages/core/utils/message-utils.ts:42-66 | the leading messages followed by each caller message prepared, in order |
| MessageUtils.PrepareMessages | packages/core/utils/message-utils.ts:42-66 | the pushes build exactly the specified list |
| MessageUtils.PrepareOrder | packages/core/utils/message-utils.ts:45-53 | the system message comes first, then the prompt as a user message; empty strings add nothing |
| MessageUtils.AsMessages | packages/core/utils/message-utils.ts:42-66 | one runtime message per prepared message, with its role and its content |
| MessageUtils.CheckFrom | packages/core/utils/message-utils.ts:79-86 | passes exactly when every message from the index on has a role and a content |
| MessageUtils.ValidateMessages | packages/core/utils/message-utils.ts:71-87 | the loop returns the specified outcome, checking emptiness first |
| MessageUtils.ValidateOkIff | packages/core/utils/message-utils.ts:71-87 | passes exactly when the list is non-empty and every message has a role and a content |
| MessageUtils.ValidateFirstError | packages/core/utils/message-utils.ts:79-86 | the error names the first incomplete message's index and the field it lacks, role first |
| MessageUtils.EmptyContentAccepted | packages/core/utils/message-utils.ts:83 | empty-string content is accepted; only missing content is rejected |
| MessageUtils.PreparedComplete | packages/core/utils/message-utils.ts:42-87 | every prepared message has a role and a content exactly when every caller message has them |
| MessageUtils.PreparedValid | packages/core/utils/message-utils.ts:42-87 | a prepared request passes exactly when it has a system, a prompt or a message and every caller message has a role and a content |
| Retry.MaxRetries | packages/core/utils/generate-text.ts:123 | the budget is the caller's `maxRetries`, else 2 |
| Retry.RunFrom | packages/core/utils/generate-text.ts:122-139 | a run makes at least one attempt and never more than the budget allows |
| Retry.Trace | packages/core/utils/generate-text.ts:125-137 | the run ends with the last attempt's outcome and the state every attempt in turn left |
| Retry.ShiftStart | packages/core/utils/generate-text.ts:131-134 | a retry starts from the state the failed attempt left |
| Retry.FailuresExhaustBudget | packages/core/utils/generate-text.ts:131-135 | when every attempt fails and the signal never fires, all `maxRetries + 1` attempts are made and the last failure is thrown |
| Retry.AbortStopsRetrying | packages/core/utils/generate-text.ts:131 | a failure after the signal fired is rethrown at once, whatever budget is left |
| Retry.SuccessStops | packages/core/utils/generate-text.ts:127-129 | a success is returned at once |
| Retry.NoBudgetOneAttempt | packages/core/utils/generate-text.ts:131 | with `maxRetries` zero or negative exactly one attempt is made |
| CoreGenerateText.Checks | packages/core/utils/generate-text.ts:76-90 | the capability, abort, message and config checks in that order; a pass returns the prepared messages and config |
| CoreGenerateText.GenerateMessage | packages/core/utils/generate-text.ts:112-119 | a `generate` message with the messages, the config and id `generate-<time>` |
| CoreGenerateText.ReplyOutcome | packages/core/utils/generate-text.ts:127-129 | an `error` reply and a rejected send both fail with their payload; any other reply's payload is the result |
| CoreGenerateText.GenerateWithWorker | packages/core/utils/generate-text.ts:106-140 | the retry loop sends the same message once per attempt and returns the specified ending |
| CoreGenerateText.GenerateInMainThread | packages/core/utils/generate-text.ts:146-173 | the retry loop runs the runtime per attempt and leaves the KV slot the last attempt left |
| CoreGenerateText.GenerateText | packages/core/utils/generate-text.ts:75-98 | the outcome, the messages sent and the new KV slot are those of the specification |
| CoreGenerateText.FailedCheckRunsNothing | packages/core/utils/generate-text.ts:76-90 | a request failing a check sends nothing, runs nothing and keeps the KV slot |
| CoreGenerateText.AbortCheckedBeforeMessages | packages/core/utils/generate-text.ts:77-88 | an aborted signal is reported before messages are looked at, for a model that can generate |
| CoreGenerateText.AttemptsBounded | packages/core/utils/generate-text.ts:122-136 | at most `maxRetries + 1` attempts, one when `maxRetries` is not positive |
| CoreGenerateText.WorkerSentCopies | packages/core/utils/generate-text.ts:125-137 | every attempt sends the same message |
| CoreGenerateText.WorkerPath | packages/core/utils/generate-text.ts:93-95 | a worker model with a bridge sends `generate-<time>` once per attempt, answers with the last reply, and keeps the KV slot |
| CoreGenerateText.WorkerAlwaysFailing | packages/core/utils/generate-text.ts:125-139 | a worker that always fails is tried exactly `maxRetries + 1` times |
| CoreGenerateText.AbortedFailureNotRetried | packages/core/utils/generate-text.ts:131 | a first failure with the signal fired is not retried |
| CoreGenerateText.MainThreadPath | packages/core/utils/generate-text.ts:97 | the main thread sends nothing, and the KV slot is the one the last attempt left |
| CoreGenerate.CapabilityFirst | packages/core/utils/generate.ts:12-14 | a model without text generation is rejected before anything else; nothing is sent or run |
| CoreGenerate.WorkerNeedsBridge | packages/core/utils/generate.ts:17-20 | a worker model without a bridge fails with `Worker bridge not found` and never falls back |
| CoreGenerate.WorkerReply | packages/core/utils/generate.ts:22-32 | an `error` response is thrown with its payload; any other response's payload is the result |
| CoreGenerate.OthersRunOnMainThread | packages/core/utils/generate.ts:35-48 | other providers run on the main thread with the model's own generation config |
| CoreGenerate.BridgelessWorkerDiffers | packages/core/utils/generate.ts:17-20 | unlike the full `generateText`, a bridgeless worker model is an error here |
| CoreTransformers.KVCache.constructor | packages/core/utils/transformers.ts:14 | the module-level cache starts as `null` |
| CoreTransformers.KVCache.HasActiveKVCache | packages/core/utils/transformers.ts:179-181 | anything but `null` counts as active, `undefined` included |
| CoreTransformers.KVCache.ResetKVCache | packages/core/utils/transformers.ts:172-174 | the cache becomes `null` |
| CoreTransformers.KVCache.GenerateWithTransformers | packages/core/utils/transformers.ts:65-166 | the outcome, the runtime call and the new cache are those of the specification |
| CoreTransformers.SlotDiscipline | packages/core/utils/transformers.ts:126-163 | with KV support a success stores the output's cache and a failure empties the slot; without it the slot is never touched |
| CoreTransformers.CachePassedOnlyWithKV | packages/core/utils/transformers.ts:109-110 | the cache goes to `generate` exactly for KV models, and it is the slot's content |
| CoreTransformers.RuntimeErrorsPassThrough | packages/core/utils/transformers.ts:159-165 | a runtime error is rethrown unchanged |
| CoreTransformers.TokenCountOnlyWhenStreaming | packages/core/utils/transformers.ts:141-144 | the token count is given exactly when streaming, as the output's length beyond the prompt |
| WandlerTransformers.RuntimeError | packages/wandler/utils/transformers.ts:247-256 | an error that looks like an abort (name `AbortError` or `abort` in the message, any case) becomes `AbortError`; any other is wrapped in `Model execution failed` |
| WandlerTransformers.ParseOutput | packages/wandler/utils/transformers.ts:274-290 | the provider's parser's result, or the whole output as one assistant message when there is no parser |
| WandlerTransformers.LastContent | packages/wandler/utils/transformers.ts:293 | the last message's content, or empty when there are no messages |
| WandlerTransformers.FinishReasonOf | packages/wandler/utils/transformers.ts:300-320 | `abort` when the signal fired, else `stop` when the last token is end-of-sequence, else `length` |
| WandlerTransformers.UsageOf | packages/wandler/utils/transformers.ts:295-298 | prompt plus completion is the total, the completion being the output beyond the prompt |
| WandlerTransformers.KVCache.constructor | packages/wandler/utils/transformers.ts:27 | the module-level cache starts as `null` |
| WandlerTransformers.KVCache.HasActiveKVCache | packages/wandler/utils/transformers.ts:370-372 | anything but `null` counts as active, `undefined` included |
| WandlerTransformers.KVCache.ResetKVCache | packages/wandler/utils/transformers.ts:363-365 | the cache becomes `null` |
| WandlerTransformers.KVCache.GenerateWithTransformers | packages/wandler/utils/transformers.ts:174-357 | the outcome, the runtime call and the new cache are those of the specification |
| WandlerTransformers.SlotDiscipline | packages/wandler/utils/transformers.ts:259-354 | with KV support a success stores the output's cache and a failure empties the slot; without it the slot is never touched |
| WandlerTransformers.CachePassedOnlyWithKV | packages/wandler/utils/transformers.ts:221-222 | the cache goes to `generate` exactly for KV models, and it is the slot's content |
| WandlerTransformers.ChecksBeforeRuntime | packages/wandler/utils/transformers.ts:180-240 | a missing input fails first; an aborted signal fails with `AbortError` before `generate` is called |
| WandlerTransformers.AbortNormalised | packages/wandler/utils/transformers.ts:247-256 | a runtime failure surfaces as `AbortError` exactly when it looks like an abort, and otherwise names the cause |
| WandlerTransformers.AbortWordAnyCase | packages/wandler/utils/transformers.ts:249 | `ABORTED` in any case and the `AbortError` name both count as aborts |
| WandlerTransformers.ParserFallback | packages/wandler/utils/transformers.ts:286-293 | without a parser the messages are the whole output as one assistant message, which is also the text |
| WandlerTransformers.UsageAddsUp | packages/wandler/utils/transformers.ts:295-347 | the usage adds up and the total is the output's length |
| WandlerTransformers.UndefinedCacheCountsAsActive | packages/wandler/utils/transformers.ts:260-372 | after a success whose output has no cache, the slot holds nothing but reads as active |
| WandlerGenerateText.Checks | packages/wandler/utils/generate-text.ts:80-100 | model present, capability, abort (as `AbortError`), messages and config, checked in that order; a pass returns the prepared messages and config |
| WandlerGenerateText.FromReply | packages/wandler/utils/generate-text.ts:152-161 | a result reply's six fields are copied into the result |
| WandlerGenerateText.GenerateWithWorker | packages/wandler/utils/generate-text.ts:119-175 | the message is always sent; an abort before the reply rejects with `AbortError`; otherwise an error reply rejects with its payload and a result reply resolves; the abort listener is removed once the send settles |
| WandlerGenerateText.MainResult | packages/wandler/utils/generate-text.ts:181-199 | a runtime success becomes a result whose missing optional fields are `null`; a failure is rethrown |
| WandlerGenerateText.GenerateText | packages/wandler/utils/generate-text.ts:77-111 | the outcome, the message sent and the new KV slot are those of the specification |
| WandlerGenerateText.FailedCheckRunsNothing | packages/wandler/utils/generate-text.ts:80-100 | a request failing a check rejects with that error, sends nothing and keeps the KV slot |
| WandlerGenerateText.WorkerNeverStartsAborted | packages/wandler/utils/generate-text.ts:90-173 | a signal already fired is caught by the checks, so the worker path's own already-aborted branch is never reached |
| WandlerGenerateText.WorkerAbortWins | packages/wandler/utils/generate-text.ts:130-168 | on the worker path an abort while waiting wins over any reply |
| WandlerGenerateText.WorkerReplyCopied | packages/wandler/utils/generate-text.ts:148-164 | without an abort, a result reply is handed back field for field and an error reply rejects with its payload |
| WandlerGenerateText.MainThreadResult | packages/wandler/utils/generate-text.ts:181-199 | a main-thread success always has a finish reason, usage and messages; without a parser the messages are the whole output |
| WandlerGenerateText.WorkerKeepsSlot | packages/wandler/utils/generate-text.ts:103-105 | the KV slot changes only on the main thread |
| WandlerStreamText.Enqueue | packages/wandler/utils/stream-text.ts:176-181 | only an open stream takes the item, appended at the end |
| WandlerStreamText.Close | packages/wandler/utils/stream-text.ts:199-200 | an open stream becomes closed with its items kept |
| WandlerStreamText.Fail | packages/wandler/utils/stream-text.ts:204-205 | an open stream errors with the reason; a finished one is left as it is |
| WandlerStreamText.SettleOnce | packages/wandler/utils/stream-text.ts:112-115 | only the first resolve or reject counts |
| WandlerStreamText.FailAll | packages/wandler/utils/stream-text.ts:202-215 | both streams error with the reason and the result rejects with it, each only if still open or pending |
| WandlerStreamText.CloseAll | packages/wandler/utils/stream-text.ts:198-201 | both streams close and the result resolves with the value, each only if still open or pending |
| WandlerStreamText.AsError | packages/wandler/utils/stream-text.ts:203 | an `Error` payload is kept; any other is wrapped, a plain object getting the message `[object Object]` |
| WandlerStreamText.Extras | packages/wandler/utils/stream-text.ts:294-300 | exactly the parts that are not `text-delta`, in order |
| WandlerStreamText.DeltasAppendExtras | packages/wandler/utils/stream-text.ts:294-300 | the extra parts add no text delta to the full stream |
| WandlerStreamText.StartCoherent | packages/wandler/utils/stream-text.ts:106-147 | a fresh session satisfies the invariant: streams in the same state, the text stream spells the full stream's deltas, the result pending exactly while open |
| WandlerStreamText.FailAllCoherent | packages/wandler/utils/stream-text.ts:202-215 | failing everything keeps the invariant |
| WandlerStreamText.FrameCoherent | packages/wandler/utils/stream-text.ts:162-208 | every frame the handler sees keeps the invariant |
| WandlerStreamText.TokenCoherent | packages/wandler/utils/stream-text.ts:283-290 | every main-thread token keeps the invariant |
| WandlerStreamText.GeneratedCoherent | packages/wandler/utils/stream-text.ts:292-304 | main-thread completion keeps the invariant, whatever extra parts come |
| WandlerStreamText.FramesCoherent | packages/wandler/utils/stream-text.ts:162-208 | after any sequence of frames the invariant holds |
| WandlerStreamText.SettledIsFinal | packages/wandler/utils/stream-text.ts:162-208 | once the result has settled, later frames change neither it nor the streams' items |
| WandlerStreamText.AbortedFrameIgnored | packages/wandler/utils/stream-text.ts:163-170 | a frame arriving after the signal fired errors both streams with `AbortError` and rejects the result |
| WandlerStreamText.StreamFrameRouting | packages/wandler/utils/stream-text.ts:172-197 | every `stream` payload goes to the full stream; the text stream and `onChunk` get non-empty `text-delta` text; non-empty `reasoning` reaches only `onChunk` |
| WandlerStreamText.EndFrames | packages/wandler/utils/stream-text.ts:198-207 | `generated` closes both streams and resolves with its payload; `error` errors both and rejects |
| WandlerStreamText.PlainErrorLosesMessage | packages/wandler/utils/stream-text.ts:203 | a plain-object error payload surfaces as `[object Object]`, losing the worker's message |
| WandlerStreamText.StreamSession.constructor | packages/wandler/utils/stream-text.ts:106-147 | both streams open and empty, the result pending |
| WandlerStreamText.StreamSession.HandleFrame | packages/wandler/utils/stream-text.ts:162-208 | the session becomes the frame handler's result and the invariant is kept |
| WandlerStreamText.StreamSession.FailWith | packages/wandler/utils/stream-text.ts:211-309 | the session becomes the all-failed state and the invariant is kept |
| WandlerStreamText.StreamSession.HandleToken | packages/wandler/utils/stream-text.ts:283-290 | the token is on both streams and the invariant is kept |
| WandlerStreamText.StreamSession.HandleGenerated | packages/wandler/utils/stream-text.ts:292-304 | the extra parts, then closing and resolving; the invariant is kept |
| WandlerStreamText.StreamChecks | packages/wandler/utils/stream-text.ts:81-89 | capability, messages, config in that order, with no abort check |
| WandlerStreamText.StreamText | packages/wandler/utils/stream-text.ts:80-158 | after the checks a model with a worker goes the worker path with a `stream-<time>` message, any other the main thread |
| WandlerStreamText.StreamInMainThread | packages/wandler/utils/stream-text.ts:228-316 | the session, the KV slot and the outcome are those of the main-thread specification, and the invariant is kept |
| WandlerStreamText.TokensCoherent | packages/wandler/utils/stream-text.ts:283-290 | streaming any tokens keeps the invariant |
| WandlerStreamText.TokensInOrder | packages/wandler/utils/stream-text.ts:283-290 | on an open session the text stream receives exactly the tokens, in order |
| WandlerStreamText.MainThreadEnds | packages/wandler/utils/stream-text.ts:279-309 | the main-thread run always settles; a success resolves with every token on the text stream; the signal never reaches the runtime |
| CoreStreamText.OnWorkerFrame | packages/core/utils/stream-text.ts:95-108 | after an abort the stream errors; `stream` payloads are enqueued; `generated` closes; `error` errors with the payload; a finished stream never changes |
| CoreStreamText.DoneStreamIsFinal | packages/core/utils/stream-text.ts:95-108 | once closed or errored, no later frame changes the stream |
| CoreStreamText.StreamHoldsPayloads | packages/core/utils/stream-text.ts:101-102 | before any abort, end or error the stream holds exactly the `stream` payloads, in order |
| CoreStreamText.CoreStream.constructor | packages/core/utils/stream-text.ts:70-82 | the stream starts open and empty |
| CoreStreamText.CoreStream.HandleFrame | packages/core/utils/stream-text.ts:95-108 | the stream becomes the frame handler's result |
| CoreStreamText.StreamText | packages/core/utils/stream-text.ts:40-56 | the same checks as the newer package; then `model.worker` decides the path |
| CoreStreamText.EnqueueAll | packages/core/utils/stream-text.ts:186-188 | tokens are appended in order to an open stream; a finished one is unchanged |
| CoreStreamText.StreamInMainThread | packages/core/utils/stream-text.ts:157-200 | the retry loop's stream, KV slot and response are those of the specification, as written |
| CoreStreamText.EnqueueAllOpen | packages/core/utils/stream-text.ts:186-188 | on an open stream the tokens land in order and it stays open |
| CoreStreamText.OpenUntilSuccess | packages/core/utils/stream-text.ts:181-199 | the stream stays open until an attempt succeeds, and a success closes it |
| CoreStreamText.RetryKeepsEarlierTokens | packages/core/utils/stream-text.ts:193-197 | a failed attempt's tokens stay on the stream before the next attempt's |
| CoreStreamText.WorkerResponse | packages/core/utils/stream-text.ts:110-126 | the worker response is the same retry loop as `generateText`'s around the `stream` message |
| CoreStreamText.MainStreamNeverErrors | packages/core/utils/stream-text.ts:181-200 | the main-thread stream never errors, whatever the attempts do |
| CoreStreamText.FailedStreamLeftOpen | packages/core/utils/stream-text.ts:193-199 | as written, when the last attempt fails the response rejects but the stream stays open |
| CoreStreamText.CorrectedStreamEnds | packages/core/utils/stream-text.ts:181-200 | with the correction the stream is closed exactly when the response resolves, else errored with its reason |
| Bridge.CreationError | packages/wandler/worker/bridge.ts:30-44 | the error names the worker's source (the URL text, or `provided Worker instance`) and the cause's message |
| Bridge.FaultPayload | packages/wandler/worker/bridge.ts:89-95 | the worker's own error when it has one, else an error with the `Worker error: …` text built from the event |
| Bridge.Settle | packages/wandler/worker/bridge.ts:59-118 | an `error` frame rejects with its payload (a rebuilt `Error` equal to the original), any other frame resolves with the frame |
| Bridge.AfterFrame | packages/wandler/worker/bridge.ts:57-73 | a terminal frame removes its id's handler; `stream` and `progress` frames and unknown ids leave the map as it is |
| Bridge.SettleFirst | packages/wandler/worker/bridge.ts:111-118 | a request's first settlement is kept; later ones change nothing |
| Bridge.Broadcast | packages/wandler/worker/bridge.ts:91-98 | every pending request not yet settled rejects with the fault; others are unchanged |
| Bridge.BroadcastStep | packages/wandler/worker/bridge.ts:92-98 | telling one more request is one more first settlement |
| Bridge.BroadcastNone | packages/wandler/worker/bridge.ts:92-98 | with no pending request nothing changes |
| Bridge.WorkerBridge.constructor | packages/wandler/worker/bridge.ts:10-14 | a new bridge has no handler, no external handler and is not terminated |
| Bridge.WorkerBridge.SetMessageHandler | packages/wandler/worker/bridge.ts:102-104 | the external handler is installed, replacing any earlier one; nothing else changes |
| Bridge.WorkerBridge.SendMessage | packages/wandler/worker/bridge.ts:106-128 | a terminated bridge refuses with `Worker has been terminated`; otherwise the request's handler replaces any under the same id, and a failed post removes it and rejects |
| Bridge.WorkerBridge.OnMessage | packages/wandler/worker/bridge.ts:49-74 | the external handler sees every frame first; the frame settles the request registered under its id, whose handler is then removed unless the frame is `stream` or `progress` |
| Bridge.WorkerBridge.OnError | packages/wandler/worker/bridge.ts:76-99 | every pending request is rejected with the fault and the handlers stay registered |
| Bridge.WorkerBridge.Terminate | packages/wandler/worker/bridge.ts:130-136 | the first call drops every handler and sets the flag; later calls change nothing |
| Bridge.RouteKeepsSettled | packages/wandler/worker/bridge.ts:49-118 | a settled request stays settled the same way, whatever frames follow |
| Bridge.RouteKeepsOthers | packages/wandler/worker/bridge.ts:57-73 | frames with other ids leave a handler in place |
| Bridge.RouteOnlyOwnFrames | packages/wandler/worker/bridge.ts:57-73 | frames with other ids never settle a request |
| Bridge.FirstFrameSettles | packages/wandler/worker/bridge.ts:57-118 | a pending request settles from the first frame with its id, and later frames do not change that |
| Bridge.StreamFramesMissRequest | packages/wandler/worker/bridge.ts:52-58 | a request with id `stream-<time>` is never reached by a `stream`-id frame, which goes to the external handler only |
| WandlerWorkerManager.IdleDelay | packages/wandler/utils/worker-manager.ts:65 | the given timeout when non-zero, else 30 000 ms |
| WandlerWorkerManager.WorkerManager.constructor | packages/wandler/utils/worker-manager.ts:17-19 | the map starts empty |
| WandlerWorkerManager.WorkerManager.CreateWorker | packages/wandler/utils/worker-manager.ts:36-75 | unsupported environments fail; a stored instance is returned as is, even terminated; otherwise a new instance is stored under the id, with an idle timer when requested, or the failure is reported as `Failed to initialize worker: …` |
| WandlerWorkerManager.WorkerManager.OnIdleTimeout | packages/wandler/utils/worker-manager.ts:61-65 | the timer terminates and removes the worker only if the id still maps to that same instance |
| WandlerWorkerManager.WorkerManager.TerminateInstance | packages/wandler/utils/worker-manager.ts:80 | an instance's own `terminate` stops it and leaves the map as it is |
| WandlerWorkerManager.WorkerManager.TerminateWorker | packages/wandler/utils/worker-manager.ts:77-83 | the id's instance is terminated and removed; an unknown id changes nothing |
| WandlerWorkerManager.WorkerManager.TerminateAll | packages/wandler/utils/worker-manager.ts:85-90 | every stored instance is terminated and the map is emptied |
| WandlerWorkerManager.ManagerSlot.constructor | packages/wandler/utils/worker-manager.ts:14 | no manager exists yet |
| WandlerWorkerManager.ManagerSlot.GetInstance | packages/wandler/utils/worker-manager.ts:21-26 | the first call creates the manager and every later call returns the same one |
| CoreWorkerManager.IdleDelay | packages/core/utils/worker-manager.ts:54 | the given timeout when non-zero, else 30 000 ms |
| CoreWorkerManager.WorkerManager.constructor | packages/core/utils/worker-manager.ts:11-13 | the map starts empty |
| CoreWorkerManager.WorkerManager.CreateWorker | packages/core/utils/worker-manager.ts:30-62 | unsupported environments fail; a stored instance is returned only while not terminated; otherwise a new one replaces it, or the failure is `Failed to initialize worker` |
| CoreWorkerManager.WorkerManager.OnIdleTimeout | packages/core/utils/worker-manager.ts:50-54 | the timer terminates and removes the worker only if the id still maps to that same instance |
| CoreWorkerManager.WorkerManager.TerminateInstance | packages/core/utils/worker-manager.ts:67 | an instance's own `terminate` stops it and leaves the map as it is |
| CoreWorkerManager.WorkerManager.TerminateWorker | packages/core/utils/worker-manager.ts:64-70 | the id's instance is terminated and removed; an unknown id changes nothing |
| CoreWorkerManager.WorkerManager.TerminateAll | packages/core/utils/worker-manager.ts:72-75 | every stored instance is terminated and the map is emptied |
| CoreWorkerManager.ManagerSlot.constructor | packages/core/utils/worker-manager.ts:8 | no manager exists yet |
| CoreWorkerManager.ManagerSlot.GetInstance | packages/core/utils/worker-manager.ts:15-20 | the first call creates the manager and every later call returns the same one |
| WandlerWorker.Serializable | packages/wandler/worker/worker.ts:13-32 | the model sent back to the main thread keeps the id and the performance, reads `worker` as its provider, has no tokenizer, instance, worker, options or parser, and carries every capability as a definite boolean with text generation preserved |
| WandlerWorker.IntText | packages/wandler/worker/worker.ts:68-72 | a printed number holds only digits and a minus sign |
| WandlerWorker.LoadError | packages/wandler/worker/worker.ts:55-76 | a failed load is rethrown as a plain `Error` without a code; a thrown number becomes the unknown-error text with that number |
| WandlerWorker.NoMarkerWithoutFirstLetter | packages/wandler/worker/worker.ts:60-65 | a message without the first letter of `Unauthorized` or `Failed to fetch` cannot trigger the missing-model translation |
| WandlerWorker.NumberHasNoMarker | packages/wandler/worker/worker.ts:68-72 | a printed number never mentions a capitalised word, so a thrown number is never mistaken for a refused download |
| WandlerWorker.LoadErrorKeepsMessageOnly | packages/wandler/worker/worker.ts:73-76 | any other load failure keeps its message and loses its name and code; an `AbortError` is no longer recognisable as one |
| WandlerWorker.UnauthorizedMeansMissing | packages/wandler/worker/worker.ts:60-65 | a refused file download is reported as the model not existing on Hugging Face, naming the model path |
| WandlerWorker.LoadAsWrittenAlwaysFails | packages/wandler/worker/worker.ts:34-94 | as written every load answers with an error, even one whose provider load succeeded, because `model.options` is never set |
| WandlerWorker.CorrectedLoadAnswers | packages/wandler/worker/worker.ts:34-94 | a load replies with the serialisable model exactly when the provider load and the warm-up succeed; the worker keeps the full model; a failed provider load leaves the previous model in place |
| WandlerWorker.NamedProvidersFail | packages/wandler/worker/worker.ts:37-54 | a model id the registry gives to the Qwen or DeepSeek provider fails with `loadTokenizer not implemented` and keeps the previous model |
| WandlerWorker.GenerateText | packages/wandler/worker/worker.ts:96-140 | without a loaded model the answer is `Model not loaded`; asked to start aborted, an `AbortError` before the runtime; otherwise the runtime runs, and an abort-like failure comes back as an `AbortError` |
| WandlerWorker.AbortedGenerateRunsNothing | packages/wandler/worker/worker.ts:108-113 | a generation that starts aborted fails with `AbortError`, calls nothing and keeps the KV cache |
| WandlerWorker.TokenFrames | packages/wandler/worker/worker.ts:151-157 | one `stream` frame per token, in order |
| WandlerWorker.PostTokens | packages/wandler/worker/worker.ts:151-157 | the frames posted are exactly the token frames, in the order the tokens arrive |
| WandlerWorker.StreamText | packages/wandler/worker/worker.ts:142-170 | a loaded model always reaches the runtime; the tokens are posted in order and, on failure, followed by one `{message, stack}` error frame |
| WandlerWorker.EveryRequestAnswered | packages/wandler/worker/worker.ts:172-271 | every message but `terminate` is answered last by one frame under its own id, and every frame before it is a `stream` frame; `terminate` posts nothing, drops the model and closes the worker |
| WandlerWorker.NothingRunsUnloaded | packages/wandler/worker/worker.ts:216-225 | without a model, `generate` and `stream` answer `Model not loaded` under the request id and change nothing |
| WandlerWorker.CapabilityOnlyForStreams | packages/wandler/worker/worker.ts:190-225 | a model without the text-generation capability still runs `generate`, while `stream` is refused before the runtime |
| WandlerWorker.StreamFrames | packages/wandler/worker/worker.ts:216-248 | a stream posts every token under `stream`, then the completion frame; when the runtime fails, the worker's own error frame and the error answer carry the same message |
| WandlerWorker.GenerateReply | packages/wandler/worker/worker.ts:190-214 | a `generate` message always runs the runtime, and the reply carries the generated text and the messages rather than the default |
| WandlerWorker.TerminateKeepsCache | packages/wandler/worker/worker.ts:250-254 | `terminate` clears the model and leaves the KV cache as it was |
| WandlerWorker.LoadKeepsCache | packages/wandler/worker/worker.ts:178-188 | a load never touches the KV cache, and a load without a model path changes nothing |
| WandlerWorker.Worker.constructor | packages/wandler/worker/worker.ts:7-7 | a new worker has no model, is open and holds the given cache |
| WandlerWorker.Worker.LoadModel | packages/wandler/worker/worker.ts:34-94 | the reply and the new model are those of the corrected load from the old model |
| WandlerWorker.Worker.HandleGenerateText | packages/wandler/worker/worker.ts:96-140 | the result, the new cache slot and the runtime call are those of the generation from the old slot |
| WandlerWorker.Worker.HandleStreamText | packages/wandler/worker/worker.ts:142-170 | the frames posted, the result, the new slot and the call are those of the stream from the old slot |
| WandlerWorker.Worker.OnMessage | packages/wandler/worker/worker.ts:172-271 | the frames posted, the new model, the new cache slot and whether the worker closed are those of handling the message from the old state |
| CoreWorker.LoadCallFor | packages/core/worker/worker.ts:47-57 | the model is loaded with the recommended dtype of the performance hints, else `auto`, on the requested device, else `webgpu` |
| CoreWorker.Built | packages/core/worker/worker.ts:61-80 | the model the worker keeps is named by its path, has a tokenizer and an instance, can only generate text, and takes the given performance hints and generation config or their defaults |
| CoreWorker.Serializable | packages/core/worker/worker.ts:22-32 | the model sent back keeps the id, the capabilities and the performance, reads `worker` as its provider, and carries neither tokenizer nor instance |
| CoreWorker.LoadDefaults | packages/core/worker/worker.ts:47-80 | without options a model loads as `auto` on `webgpu`, with the KV cache on and an empty generation config |
| CoreWorker.LoadOutcome | packages/core/worker/worker.ts:34-98 | a load answers with the serialisable model exactly when both loads and the warm-up succeed; a failure is `Failed to load model: …`; a failed load keeps the previous model, a failed warm-up leaves the new one |
| CoreWorker.LoadFailureNamesCause | packages/core/worker/worker.ts:37-58 | a failed load reports the tokenizer's or the instance's error, one that actually failed |
| CoreWorker.GenerateText | packages/core/worker/worker.ts:100-125 | without a model the answer is `Model not loaded`; a runtime failure is passed on as is; otherwise the first decoded sequence is the answer |
| CoreWorker.StreamCacheDiscipline | packages/core/worker/worker.ts:180-243 | the KV cache is handed to the runtime only when the model supports it; it then holds the output's cache on success and is emptied on failure; without support it is never touched |
| CoreWorker.StreamOptionsPrecedence | packages/core/worker/worker.ts:171-178 | the stream flags win over the message's own fields, which win over the model's generation config, and a key is present exactly when one of them has it |
| CoreWorker.EveryMessageAnswered | packages/core/worker/worker.ts:246-316 | every message but `terminate` is answered last by one frame under its own id, every frame before it is a streamed token in order; `terminate` posts nothing, drops the model and closes the worker |
| CoreWorker.NothingRunsUnloaded | packages/core/worker/worker.ts:279-285 | without a model, `generate` and `stream` answer `Model not loaded` and touch neither the runtime nor the cache |
| CoreWorker.GenerateLeavesCache | packages/core/worker/worker.ts:100-125 | every message but `stream` leaves the KV cache as it was |
| CoreWorker.StreamFailureAnsweredOnce | packages/core/worker/worker.ts:236-243 | a failing stream posts its tokens and then one error answer under the message's id, with no error frame of its own |
| CoreWorker.Worker.constructor | packages/core/worker/worker.ts:6-9 | a new worker has no model, an empty cache and is open |
| CoreWorker.Worker.LoadModel | packages/core/worker/worker.ts:34-98 | the reply, the runtime load call and the new model are those of the load from the old model; the cache is untouched |
| CoreWorker.Worker.HandleStream | packages/core/worker/worker.ts:127-244 | the frames posted, the result, the call and the new cache are those of the stream from the old cache; the model is unchanged |
| CoreWorker.Worker.OnMessage | packages/core/worker/worker.ts:246-316 | the frames posted, the new model, the new cache and whether the worker closed are those of handling the message from the old state |
| UseChat.LastAssistant | packages/react/hooks/useChat.ts:245-250 | the position found holds an assistant message with no assistant message after it; none is found only when the list has no assistant message |
| UseChat.FindById | packages/react/hooks/useChat.ts:367-369 | the position found is the first message with the id; none is found only when no message has it |
| UseChat.AddMessage | packages/react/hooks/useChat.ts:227-237 | the list grows by one message at the end, with the given role and content, marked complete; the earlier messages are kept |
| UseChat.AddMessagePart | packages/react/hooks/useChat.ts:242-259 | the part is appended to the parts of the last assistant message and every other message is kept; without an assistant message nothing changes |
| UseChat.CompleteLastAssistant | packages/react/hooks/useChat.ts:278-295 | only the last assistant message is marked complete; without one nothing changes |
| UseChat.CompleteById | packages/react/hooks/useChat.ts:430-444 | only the message with the turn's assistant id is marked complete; without one nothing changes |
| UseChat.FirstReasoning | packages/react/hooks/useChat.ts:391-392 | the position found is the first reasoning part; none is found only when there is no reasoning part |
| UseChat.WithReasoning | packages/react/hooks/useChat.ts:390-418 | a reasoning chunk extends the first reasoning part in place, other parts kept, or appends a new reasoning part when there is none |
| UseChat.OnChunk | packages/react/hooks/useChat.ts:362-424 | a chunk keeps every message's id and role and touches only the assistant message: a text chunk appends its text to the content, a reasoning chunk grows its reasoning part, any other chunk or a missing message changes nothing |
| UseChat.OnChunks | packages/react/hooks/useChat.ts:362-424 | the chunks applied in order keep the length of the list |
| UseChat.OneChunk | packages/react/hooks/useChat.ts:362-380 | one chunk keeps the assistant message where it was and grows its content by the chunk's text, if it is a text chunk |
| UseChat.ChunksAccumulate | packages/react/hooks/useChat.ts:362-424 | however many chunks arrive, the assistant message stays where it was, its content grows by exactly the text the text chunks carry, in order, and every other message is untouched |
| UseChat.ReasoningExtendsOnePart | packages/react/hooks/useChat.ts:381-422 | two reasoning chunks on parts without reasoning yield one reasoning part holding both texts in order |
| UseChat.AsBase | packages/react/hooks/useChat.ts:351-354 | the messages sent keep each message's role and content, in order |
| UseChat.Begin | packages/react/hooks/useChat.ts:317-354 | a turn holds the user message with the trimmed input, complete, an empty incomplete assistant message with the given id, and sends the earlier messages plus the user message |
| UseChat.SubmitAppendsTwo | packages/react/hooks/useChat.ts:327-354 | a submission adds exactly two messages after the earlier ones and sends one more message than the history, with non-empty content |
| UseChat.StopIdempotent | packages/react/hooks/useChat.ts:271-296 | stopping twice leaves the same list as stopping once |
| UseChat.FinishedAsWrittenDropsReply | packages/react/hooks/useChat.ts:452-461 | as written, the assistant message `onFinish` receives is empty whatever the chunks carried, while the list holds the streamed text |
| UseChat.FinishedCarriesReply | packages/react/hooks/useChat.ts:428-462 | corrected, `onFinish` receives the history, the user message and the assistant message with the whole streamed text, marked complete |
| UseChat.AbortController.constructor | packages/react/hooks/useChat.ts:314-314 | a new controller has not fired |
| UseChat.AbortController.Abort | packages/react/hooks/useChat.ts:272-274 | after `abort` the controller has fired |
| UseChat.Chat.constructor | packages/react/hooks/useChat.ts:199-213 | the hook starts with the initial messages, each given an id and marked complete, the initial input, no error, idle and without a controller |
| UseChat.Chat.SetInput | packages/react/hooks/useChat.ts:209-209 | only the input changes |
| UseChat.Chat.AddMessageTo | packages/react/hooks/useChat.ts:227-237 | the list becomes the one with the message added; nothing else changes |
| UseChat.Chat.AddMessagePartTo | packages/react/hooks/useChat.ts:242-259 | the list becomes the one with the part added to the last assistant message; nothing else changes |
| UseChat.Chat.ClearMessages | packages/react/hooks/useChat.ts:264-266 | the list becomes empty; nothing else changes |
| UseChat.Chat.Stop | packages/react/hooks/useChat.ts:271-296 | a running controller is fired and dropped, the last assistant message is marked complete, and the hook goes idle and stops loading; the input and the error are kept |
| UseChat.Chat.Submit | packages/react/hooks/useChat.ts:301-348 | a blank input or a running request is ignored and changes nothing; otherwise the turn is begun from the current list and input, the user and the empty assistant message are appended, the input and the error are cleared, the hook is streaming, and the previous controller is fired and replaced by a fresh unfired one |
| UseChat.Chat.Start | packages/react/hooks/useChat.ts:310-348 | the previous controller is fired, a fresh unfired one replaces it, the user and the empty assistant message are appended, the input and the error are cleared, and the hook is streaming |
| UseChat.Chat.Chunk | packages/react/hooks/useChat.ts:362-424 | the list becomes the one after the chunk; nothing else changes |
| UseChat.Chat.Finish | packages/react/hooks/useChat.ts:428-462 | the turn's assistant message is marked complete, the hook goes idle and drops its controller, and `onFinish` receives the corrected list carrying the streamed reply |
| UseChat.Chat.Fail | packages/react/hooks/useChat.ts:464-474 | the error is recorded as `err` when it is an `Error`, else as `new Error(String(err))`, and the hook goes to `error` without a controller; `onError` is called with the error exactly when it was an `Error` instance |
| UseChat.CaughtAsError | packages/react/hooks/useChat.ts:465 | an `Error` is kept; a string becomes its message, `undefined` the message `undefined`, any other object `[object Object]` |
| UseChat.CaughtMatchesFrameError | packages/react/hooks/useChat.ts:465 | the hook wraps a thrown value as the worker bridge wraps an error payload, except `undefined`, which gives `undefined` here and an empty message there |

## Left out

- The wandler package's own `message-utils.ts` and `generation-utils.ts` are imported by its `generate-text.ts` and `stream-text.ts` but are not part of this model; the core package's versions (`MessageUtils`, `GenerationUtils`) stand in for them.
- The transformers.js runtime: tokenisation, the chat template rendering, `generate`, decoding and the `TextStreamer` are parameters whose outcomes are given, not computed.
- Capability auto-detection in `packages/wandler/utils/transformers.ts:62-157` follows a fetch of the model's configuration and is a heuristic over its contents; it is not modelled, and the detected capabilities are a parameter.
- `loadModelInstance` and `loadTokenizer` in `packages/wandler/utils/transformers.ts:30-49` only forward to the runtime and are folded into the load outcomes.
- Progress frames posted while a worker loads a model, and the progress callbacks that forward them, are not modelled.
- The raw model `config` object is not modelled; the serialised model carries an empty generation config.
- Enqueueing into or closing a JavaScript stream that is no longer open throws; the model treats it as changing nothing.
- React batches state updates; the model applies each update at once and in order. Message `data`, annotations and tool invocations are not modelled.
- The unmount effect of `useChat` (`packages/react/hooks/useChat.ts:216-222`), which aborts the running request, is not modelled.
- The generation options the newer worker forwards to the runtime (`max_new_tokens`, `temperature`, `stop`, `seed` and the rest, `packages/wandler/worker/worker.ts:194-200 and 226-234`) are not modelled: they only shape the runtime's outcome, which is a parameter.
- WandlerWorker.Worker.LoadModel, WandlerWorker.Worker.OnMessage: model the corrected load (see Findings); as written, `packages/wandler/worker/worker.ts:79` reads the dtype of a model that has no options after storing it, so every load is answered with an error although the model is set; WandlerWorker.LoadAsWrittenAlwaysFails states that behaviour.
- UseChat.Chat.Finish: passes `onFinish` the corrected list, whose assistant message carries the streamed reply; as written (`packages/react/hooks/useChat.ts:452-461`) it receives the assistant message as created, with empty content (see Findings, UseChat.FinishedAsWrittenDropsReply).
- WandlerDeepseek.ReadPair, WandlerDeepseek.ReadPairs, WandlerDeepseek.ReverseTemplate, WandlerDeepseek.PieceMessages: roles are lower-cased for ASCII letters only. Text before the first marker is read as a role (`packages/wandler/providers/deepseek.ts:59-60`), so a role can hold any letter; `toLowerCase` of its non-ASCII letters ("Ä" to "ä") is not modelled, because Unicode case mapping is outside this model.
- WandlerStreamText.Fail, WandlerStreamText.SettledIsFinal, CoreStreamText.OnWorkerFrame, CoreStreamText.DoneStreamIsFinal: a closed stream is final here. In the streams standard, `controller.error()` after `close()` while chunks are still queued errors the stream and discards those chunks; reads by the consumer are not modelled, so the queue a later error would drop is not either.
- The `aborted` flag of the newer worker's `handleGenerateText` is never set by its dispatch; the model keeps the flag, and `WandlerWorker.GenerateReply` shows that dispatch always reaches the runtime.
- The core package's own worker bridge is not part of this model; the core worker manager's `isTerminated` check is modelled as "terminate has been called on that worker".
- Concurrency: the interleaving of several requests, workers and callbacks is not modelled; each operation runs to completion.
- Console logging, the streams' `cancel()` handlers and `createAsyncIterableStream` are not modelled.
- Floating point: temperatures, probabilities and timings are `real`.
- Types.AsNumber: a list of one numeric text (`["5"]`) reads as `NaN` here, where JavaScript's `Number` gives its value; other lists and `undefined` read as `NaN`, the empty list as 0, as in JavaScript.

## Findings

| source | as written | input that shows it | evidently intended | confidence | as-written member | corrected member |
|---|---|---|---|---|---|---|
| packages/core/utils/stream-text.ts:193-199 | when the last retry fails, the main-thread stream is neither errored nor closed | `maxRetries` 0 and a runtime that throws | the stream ends (is errored) once no attempt is left | not executed | CoreStreamText.FailedStreamLeftOpen | CoreStreamText.CorrectedStreamEnds |
| packages/wandler/worker/worker.ts:79 | `model.options.dtype` is read on a model that has no `options`, which throws a `TypeError` after the model was loaded, so every load is answered with an error | any model id that the transformers provider loads successfully | the dtype is logged only when the model has options, and the load goes on to the warm-up | not executed | WandlerWorker.LoadAsWrittenAlwaysFails | WandlerWorker.CorrectedLoadAnswers |
| packages/react/hooks/useChat.ts:452-461 | `onFinish` receives the assistant message as it was created, with empty content | one submission whose stream carries a `text-delta` chunk `"hi"` | `onFinish` receives the assistant message with the streamed text | not executed | UseChat.FinishedAsWrittenDropsReply | UseChat.FinishedCarriesReply |
