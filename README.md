# Companion AI generation core, in Dafny

This project models the logic of the Unity companion project that decides what the
companion does and how it phrases its reply:

- **The Phi-3 generation controller** (`Phi3Execution`). It builds a chat prompt for the
  companion state, seeds a generation session with the encoded prompt, and refills two
  fixed-size buffers (token ids and attention mask) from the token history. One step asks the
  model for logits, samples the next token with temperature, and then either stops on an
  end-of-sequence id or appends the token and its decoded text. The reply is read back as the
  trimmed text after the last `<|assistant|>\n` marker.
- **The command handler** (`CompanionHandler`). It lower-cases a free-text command and checks
  four keyword groups in priority order (FOLLOW, PROTECT, HEAL, RUN_AROUND). When no keyword
  matches, it keeps the last state. It passes the state on to the controller only while the
  controller is idle. It takes its input from the input field first and the inspector's manual
  input second, and it offers four shortcut commands.
- **The GPT-2 prompt runner** (`ModelExecution`). It decodes greedily with a per-position
  arg-max over a `[1, seq, vocab]` logits tensor, where ties go to the lowest id. It also builds
  the inputs for a prompt, including an attention mask of all ones.

Modules:

- `Strings` (`strings.dfy`): the .NET string operations the code relies on. These are
  `Contains` and `LastIndexOf`, both matched character by character, ASCII `ToLower` and
  `Trim`.
- `CompanionStates` (`companion_state.dfy`): the state enum.
- `Sampling` (`sampling.dfy`): logits tensors, the running maximum and the cumulative-weight
  selection rule of the sampler.
- `Phi3` (`phi3_execution.dfy`): prompt text, buffers, the session invariant and the
  `Phi3Execution` class.
- `Companion` (`companion_handler.dfy`): the classifier and the `CompanionHandler` class.
- `ModelExec` (`model_execution.dfy`): greedy decoding and the prompt inputs.

How the model stands in for outside code:

- The controller is a class whose fields are the session: `tokens`, `initialPromptLength`,
  `isRunning` and `fullText`.
- The two persistent tensors are arrays of length `maxSequenceLength`.
- The tokenizer's encode/decode are function-valued constants.
- `x ↦ exp(x / temperature)` is the function `scaledExp`.
- The inference worker is a function parameter `model` from the two buffers to an optional
  logits tensor.
- `UnityEngine.Random.value` is a parameter `r`.
- Each pass of the `GenerationLoop` coroutine is one call of `GenerationStep`. The first
  pass's budget check runs inside `StartGeneration`, because `StartCoroutine` runs the loop up
  to its first `yield` before returning.

Three behaviours of the code are easy to misread. The model keeps them as written:

- **Generation length.** Generation is bounded only by `maxTokens`, not by `maxSequenceLength`.
  Once the history outgrows the buffer, its tail is silently left out of the buffers.
- **Sampling offset.** The sampled slice starts at `(seqLen - 1) * vocabSize`. That is the last
  row of the whole output width, not the last occupied position.
- **The draw `r`.** It is taken in `[0, 1]` and is not scaled by the total weight. A
  multinomial sampler would scale the draw by the total weight; the code compares the
  unscaled `Random.value` against the running sum. As a result, the sampled index never lies
  past the first maximal logit, and the fallback to `vocabSize - 1` is never reached when there
  is at least one logit.

## Model

| member | source | states |
|---|---|---|
| Strings.Contains | Assets/Scripts/CompanionHandler.cs:167 | `text.Contains(keyword)` is true exactly when the keyword occurs at some position of the text |
| Strings.LastIndexOf | Assets/Scripts/Phi3Execution.cs:320 | the result is -1 exactly when the marker does not occur; otherwise the marker occurs at the result and at no later position |
| Strings.LastIndexOfIsLast | Assets/Scripts/Phi3Execution.cs:320 | an occurrence with none after it is the one LastIndexOf returns |
| Strings.ToLower | Assets/Scripts/CompanionHandler.cs:120 | lower-casing keeps the length and maps each character by itself: A–Z to a–z, everything else unchanged |
| Strings.ToLowerIsLower | Assets/Scripts/CompanionHandler.cs:120 | the lower-cased input has no upper-case letter, and lower-casing again changes nothing |
| Strings.ToLowerOfLower | Assets/Scripts/CompanionHandler.cs:120 | a text that is already lower case is left as it is |
| Strings.Trim | Assets/Scripts/Phi3Execution.cs:322 | `Trim()` returns a middle slice of the text with only white space cut off on either side, and the slice neither starts nor ends with white space |
| Strings.TrimAllWhiteSpace | Assets/Scripts/Phi3Execution.cs:322 | a text of white space only trims to the empty string |
| Sampling.OffsetIsLastRow | Assets/Scripts/Phi3Execution.cs:214-216 | for a full rank-3 output, the sampled slice lies inside the tensor and starts at row `shape[1]-1` |
| Sampling.MaxFrom | Assets/Scripts/Phi3Execution.cs:259-261 | the running maximum from float.MinValue is at least the start and every logit, and it is the start or one of the logits |
| Sampling.Weights | Assets/Scripts/Phi3Execution.cs:268 | one weight `exp((x - max)/temperature)` per logit; WeightsNonNegative states they are non-negative and SelectStopsAtMax that the maximum weighs 1 |
| Sampling.Select | Assets/Scripts/Phi3Execution.cs:266-274 | the selection loop as a function; SelectIsFirstReaching, SelectInRange and SelectStopsAtUnitWeight state what it returns |
| Sampling.SelectIsFirstReaching | Assets/Scripts/Phi3Execution.cs:266-274 | the selected index is the first whose cumulative weight reaches `r`; when none reaches it, the index is `vocabSize-1` |
| Sampling.SelectInRange | Assets/Scripts/Phi3Execution.cs:266-274 | the selected index lies in `[0, vocabSize)` when `vocabSize >= 1`, and is -1 when `vocabSize` is 0 |
| Sampling.PrefixSumMonotone | Assets/Scripts/Phi3Execution.cs:269 | with non-negative weights, the running sum never decreases |
| Sampling.SelectStopsAtUnitWeight | Assets/Scripts/Phi3Execution.cs:266-274 | with non-negative weights, a weight of 1 at `k` and `r` in `[0,1]`, the selection stops at or before `k` on an index that reaches `r`, so the fallback is not taken |
| Sampling.WeightsNonNegative | Assets/Scripts/Phi3Execution.cs:268 | each weight `exp((x - max)/temperature)` is non-negative |
| Sampling.SelectStopsAtMax | Assets/Scripts/Phi3Execution.cs:259-271 | an entry equal to the subtracted maximum weighs 1 and stops the selection at or before it |
| Sampling.SampleNeverPastFirstMax | Assets/Scripts/Phi3Execution.cs:259-271 | the sampled index never lies past an index that holds the maximal logit |
| Phi3.BuildPromptForState | Assets/Scripts/Phi3Execution.cs:139-155 | every prompt starts with the system turn and ends with `<|assistant|>\n` |
| Phi3.PromptsDiffer | Assets/Scripts/Phi3Execution.cs:145-152 | two different states get two different prompts |
| Phi3.MarkerLength | Assets/Scripts/Phi3Execution.cs:320-322 | the 14 characters skipped after the index are exactly the marker `<|assistant|>\n` |
| Phi3.ExtractAssistantResponse | Assets/Scripts/Phi3Execution.cs:318-323 | without a marker the response is `""`; with one, it is the trimmed text after the marker's last occurrence (see also NoMarkerNoResponse, ResponseFollowsLastMarker, ExtractAfterPrompt) |
| Phi3.NoMarkerNoResponse | Assets/Scripts/Phi3Execution.cs:320-321 | without a marker in the text, the response is `""` |
| Phi3.ResponseFollowsLastMarker | Assets/Scripts/Phi3Execution.cs:318-323 | with a marker, the response is the trimmed text after the last marker |
| Phi3.ExtractAfterPrompt | Assets/Scripts/Phi3Execution.cs:318-323 | for a prompt ending with the marker and generated text that starts no later marker, the response is exactly the generated text, trimmed |
| Phi3.NoResponseForBarePrompt | Assets/Scripts/Phi3Execution.cs:318-323 | right after a prompt for any state is set as the full text, the response is `""` |
| Phi3.Repeat | Assets/Scripts/ModelExecution.cs:75 | `Enumerable.Repeat(v, n)` is `n` copies of `v` |
| Phi3.BufferOfFittingHistory | Assets/Scripts/Phi3Execution.cs:236-251 | a history that fits is copied whole into the id buffer and padded with id 0; the mask is 1 for each token and 0 after |
| Phi3.BufferDropsOverflow | Assets/Scripts/Phi3Execution.cs:236-251 | a history longer than the buffer puts only its first `maxSequenceLength` tokens in the buffer, all with mask 1; the dropped tail has no influence |
| Phi3.RefillExample | Assets/Scripts/Phi3Execution.cs:236-251 | the refill of history [5, 9, 2] into six positions is ids [5, 9, 2, 0, 0, 0] and mask [1, 1, 1, 0, 0, 0] |
| Phi3.SessionStarts | Assets/Scripts/Phi3Execution.cs:161-175 | an encoded prompt shorter than the buffer is a session with nothing generated |
| Phi3.SessionAppend | Assets/Scripts/Phi3Execution.cs:220-227 | appending a non-EOS token within the budget keeps the session invariant: the prompt prefix is unchanged, the token is appended once and its decoded text is appended to the full text |
| Phi3.Phi3Execution.constructor | Assets/Scripts/Phi3Execution.cs:54-65 | the controller is initialised when both assets are present (loading failures are not modelled); it starts idle in state FOLLOW, with an empty history and two buffers of `maxSequenceLength` |
| Phi3.Phi3Execution.IsGenerating | Assets/Scripts/Phi3Execution.cs:132 | the `isRunning` flag; the methods below state when it is set and cleared (StartGeneration, RunInferenceStep, GenerationStep, StopGeneration) |
| Phi3.Phi3Execution.GetLastResponse | Assets/Scripts/Phi3Execution.cs:133 | the reply extracted from `fullText`; its properties are those of Phi3.ExtractAssistantResponse |
| Phi3.Phi3Execution.SetState | Assets/Scripts/Phi3Execution.cs:112-121 | the current state changes nothing; a new state is recorded, and a generation for it starts only when the controller is initialised and idle |
| Phi3.Phi3Execution.GenerateResponse | Assets/Scripts/Phi3Execution.cs:123-130 | nothing changes when the controller is uninitialised or busy; otherwise a generation starts from the state's prompt |
| Phi3.Phi3Execution.StartGeneration | Assets/Scripts/Phi3Execution.cs:161-181 | `fullText` and `tokens` become the prompt and its encoding; a prompt of at least `maxSequenceLength` tokens leaves the session stopped with `initialPromptLength` unchanged; otherwise `initialPromptLength = tokens.Count`, and the session runs exactly when `maxTokens > 0`, since the loop's first budget check happens before StartGeneration returns |
| Phi3.Phi3Execution.StopGeneration | Assets/Scripts/Phi3Execution.cs:307-316 | the session stops, and nothing else changes |
| Phi3.Phi3Execution.FillBuffers | Assets/Scripts/Phi3Execution.cs:236-251 | each buffer position `i` holds `tokens[i]`/1 when `i < tokens.Count`, and 0/0 otherwise |
| Phi3.Phi3Execution.SampleWithTemperature | Assets/Scripts/Phi3Execution.cs:257-275 | the returned index lies in `[0, vocabSize)`, and it is the first index whose cumulative weight from the running maximum reaches `r`, else `vocabSize-1` |
| Phi3.Phi3Execution.RunInferenceStep | Assets/Scripts/Phi3Execution.cs:197-230 | the buffers are refilled from the history; a missing output or an EOS id (32000, 32001, 32007) stops the session with `tokens` and `fullText` unchanged; any other sampled id is appended once to `tokens`, and its decoding to `fullText` |
| Phi3.Phi3Execution.GenerationStep | Assets/Scripts/Phi3Execution.cs:183-195 | a stopped session is left alone; a spent token budget stops the session with no refill and no sampling (so with `maxTokens = 0` no inference ever runs); otherwise one inference step runs; the prompt prefix never changes |
| Companion.ContainsAny | Assets/Scripts/CompanionHandler.cs:163-173 | true exactly when some keyword is a substring of the text |
| Companion.ParseStateFromKeywords | Assets/Scripts/CompanionHandler.cs:118-149 | the keyword classifier; ParseIsFirstMatchingGroup, EarliestGroupWins, NoKeywordKeepsLastState and ParseIgnoresCase state its priority order, fallback and case-insensitivity |
| Companion.ParseStateWithAI | Assets/Scripts/CompanionHandler.cs:151-161 | the AI parser returns the keyword classifier's result for every input |
| Companion.FirstMatchingWins | Assets/Scripts/CompanionHandler.cs:118-144 | in a priority table of keyword groups, the earliest matching group decides |
| Companion.FirstMatchingFallback | Assets/Scripts/CompanionHandler.cs:146-148 | in a priority table, the fallback is returned when no group matches |
| Companion.ParseIsFirstMatchingGroup | Assets/Scripts/CompanionHandler.cs:118-149 | the classifier's if-chain is the table FOLLOW, PROTECT, HEAL, RUN_AROUND read top down over the lower-cased input, falling back to `lastState` |
| Companion.EarliestGroupWins | Assets/Scripts/CompanionHandler.cs:118-144 | an input whose lower-cased form matches group `i` and no earlier group classifies as group `i` |
| Companion.NoKeywordKeepsLastState | Assets/Scripts/CompanionHandler.cs:146-148 | when no keyword matches, the result is `lastState` |
| Companion.ParseIgnoresCase | Assets/Scripts/CompanionHandler.cs:120 | an input and its lower-cased form classify alike |
| Companion.KeywordsAreLowerCase | Assets/Scripts/CompanionHandler.cs:123-141 | every keyword of every group is lower case |
| Companion.ClassifiedLowerCase | Assets/Scripts/CompanionHandler.cs:118-144 | a lower-case text with a keyword of group `i` and none of an earlier group classifies as group `i` |
| Companion.ShortcutFollow | Assets/Scripts/CompanionHandler.cs:199-202 | "follow me" classifies as FOLLOW |
| Companion.ShortcutProtect | Assets/Scripts/CompanionHandler.cs:204-207 | "protect me" classifies as PROTECT, whatever the last state |
| Companion.ShortcutHeal | Assets/Scripts/CompanionHandler.cs:209-212 | "heal me" classifies as HEAL, whatever the last state |
| Companion.ShortcutRunAround | Assets/Scripts/CompanionHandler.cs:214-217 | "scout the area" classifies as RUN_AROUND, whatever the last state |
| Companion.SelectInput | Assets/Scripts/CompanionHandler.cs:63-80 | non-empty input-field text wins; otherwise non-empty manual input is used; there is no input exactly when both are empty |
| Companion.CompanionHandler.constructor | Assets/Scripts/CompanionHandler.cs:18-23 | the handler starts with `lastState = FOLLOW` and the given settings |
| Companion.CompanionHandler.DetectState | Assets/Scripts/CompanionHandler.cs:94-105 | the state the configured parser detects; both choices give the keyword classifier's result (ParseStateWithAI) |
| Companion.CompanionHandler.ProcessInput | Assets/Scripts/CompanionHandler.cs:85-116 | while the controller generates, nothing changes; otherwise `lastState` and the controller's state become the detected state, and an initialised controller has started the generation for it |
| Companion.CompanionHandler.OnSubmitButtonClicked | Assets/Scripts/CompanionHandler.cs:61-83 | the field text is processed and the field cleared; otherwise the manual input is processed and kept; with neither, nothing changes |
| Companion.CompanionHandler.SetFollowState | Assets/Scripts/CompanionHandler.cs:199-202 | processes "follow me"; when idle, the new state is FOLLOW |
| Companion.CompanionHandler.SetProtectState | Assets/Scripts/CompanionHandler.cs:204-207 | processes "protect me"; when idle, the new state is PROTECT |
| Companion.CompanionHandler.SetHealState | Assets/Scripts/CompanionHandler.cs:209-212 | processes "heal me"; when idle, the new state is HEAL |
| Companion.CompanionHandler.SetRunAroundState | Assets/Scripts/CompanionHandler.cs:214-217 | processes "scout the area"; when idle, the new state is RUN_AROUND |
| ModelExec.TensorToToken | Assets/Scripts/ModelExecution.cs:44-66 | exactly `shape[1]` ids, in position order; each lies in `[0, shape[2])` and is the first index of a maximal logit at its position, so ties go to the lowest id; the text is the decoding of the ids |
| ModelExec.FirstMaxIsSamplerMax | Assets/Scripts/ModelExecution.cs:53-60 | the greedy id holds the maximum that the temperature sampler subtracts |
| ModelExec.SampledNeverPastGreedy | Assets/Scripts/ModelExecution.cs:53-60 | over a position's logits, temperature sampling never picks an index past the greedy id |
| ModelExec.PromptTensors | Assets/Scripts/ModelExecution.cs:70-75 | the id tensor holds the prompt's ids with shape [1, n]; the attention mask has shape [1, n], and all n entries are 1 |

## Left out

- The Unity Inference Engine is not modelled: `Worker`, `ModelLoader`, scheduling, `PeekOutput`, read-back and disposal. The model's output is the parameter `model`, which returns `None` when no `logits` tensor is present.
- Exceptions on tensors the sampler cannot read are not modelled. The model requires instead that every output is readable (`OutputsReadable`) and that the prompt runner's tensor is well shaped (`WellShaped`).
- The Phi-3 BPE tokenizer (`BuildPhiTokenizer`, JSON parsing) and SharpToken `r50k_base` are library code. They appear as abstract encode/decode functions, and no round trip is claimed.
- Floating point is not modelled: logits are reals, `Mathf.Exp((x - max) / temperature)` is the supplied `scaledExp`, and rounding is not modelled. The lemmas about the sampler assume `scaledExp` is non-negative with `scaledExp(0) = 1`.
- `temperature` is fixed inside `scaledExp` for the lifetime of a controller, although the inspector field can change between steps.
- `maxTokens`, `maxSequenceLength` and `useAIForStateParsing` are inspector fields that can be edited at run time; the model keeps them constant. A `maxSequenceLength` changed after the tensors were allocated would no longer match their length, which the model's `Valid()` rules out.
- When `StartCoroutine` starts `GenerationLoop` and the budget leaves room, the loop yields the first `RunInferenceStep` before `StartGeneration` returns; the model runs that first step, like every later one, in `GenerationStep`.
- `UnityEngine.Random.value` is the parameter `r`. The lemmas about never passing the maximum assume `r` is in `[0, 1]`.
- Coroutine scheduling is not modelled: `StartCoroutine`, `StopCoroutine`, `yield` and `WaitUntil`. One pass of `GenerationLoop` is `GenerationStep`, called by the environment. The interleaving of several coroutines is not modelled.
- `WaitForResponse` and all status, response and `Debug` text are not modelled, because they are UI and logging only. The same holds for the `Start`/`Update`/`OnValidate`/`OnDestroy`/`OnEnable` lifecycle, `GetComponent` and the UI listeners.
- Phi3.Phi3Execution.constructor: an exception thrown by `BuildPhiTokenizer` or `ModelLoader.Load` during `Start` also leaves the controller uninitialised; loading failures are not modelled, so the model is initialised whenever both assets are present.
- Phi3.Phi3Execution.constructor: allocates the two buffers even when assets are missing. The source skips `AllocateTensors` in that case, but every operation that touches the buffers is unreachable while uninitialised.
- Strings.ToLower: only ASCII letters are mapped, not culture-sensitive lower-casing.
- Strings.Trim: the white-space set is the ASCII and Latin-1 subset of `Char.IsWhiteSpace`, not all Unicode white space.
- Strings.LastIndexOf: the source's `String.LastIndexOf(string)` compares with the current culture; the model matches ordinally, character by character. `String.Contains(string)` is ordinal in the source, as in the model.
- Companion.SelectInput: a null input field or null text is modelled as "no field" or as empty text.
- The prompt strings built and not used in `ParseStateWithAI` are not modelled, because they have no effect.
- The `_ => ""` arm of the state switch in `BuildPromptForState` cannot occur for the four-valued enum, so it is left out.
- Phi3.Phi3Execution.NextToken carries no contract of its own: it is the sampling rule of SampleWithTemperature (Sampling.Select over the weights of the sampled slice), in whose terms RunInferenceStep is stated.
- `ModelExecution.GetTensorFromString`, `DecodeTokens` and `GetTokensFromString` are tokenizer wrappers, and the output logging of `PromptModel` is not modelled.
- The editor tooling, the menu scene loader and the camera and title animations are not part of this model.
