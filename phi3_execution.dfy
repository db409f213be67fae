// The Phi-3 generation controller: prompt templating, the fixed-size input
// buffers, temperature sampling and the resumable generation session that
// the Unity coroutine drives one step at a time.
module Phi3 {
  import opened CompanionStates
  import opened Strings
  import opened Sampling

  // ---------------------------------------------------------------------
  // Prompt text
  // ---------------------------------------------------------------------

  /** The marker after which the assistant's reply begins. */
  const AssistantMarker: string := "<|assistant|>\n"

  /** The fixed system turn that opens every prompt. */
  const SystemTurn: string :=
    "<|system|>\nYou are a helpful AI companion. Respond concisely in 1\U{2013}2 sentences.\n"

  /** The user turn chosen by the companion state. */
  function UserTurn(state: CompanionState): string
  {
    match state
    case FOLLOW => "<|user|>\nFollow me.\n"
    case PROTECT => "<|user|>\nProtect me.\n"
    case HEAL => "<|user|>\nHeal me.\n"
    case RUN_AROUND => "<|user|>\nScout ahead.\n"
  }

  /** The chat prompt for a state: system turn, user turn, assistant marker. */
  function BuildPromptForState(state: CompanionState): (p: string)
    ensures |p| >= |SystemTurn| + |AssistantMarker|
    ensures p[..|SystemTurn|] == SystemTurn
    ensures p[|p| - |AssistantMarker|..] == AssistantMarker
  {
    SystemTurn + UserTurn(state) + AssistantMarker
  }

  /** Different states give different prompts. */
  lemma PromptsDiffer(s1: CompanionState, s2: CompanionState)
    requires s1 != s2
    ensures BuildPromptForState(s1) != BuildPromptForState(s2)
  {
    var p1, p2 := BuildPromptForState(s1), BuildPromptForState(s2);
    var n := |SystemTurn| + 10;
    assert p1[n] == UserTurn(s1)[10] && p2[n] == UserTurn(s2)[10];
  }

  /** The assistant marker is the 14 characters the source skips. */
  lemma MarkerLength()
    ensures |AssistantMarker| == 14
  {
  }

  /** The reply held in `fullText`: the trimmed text after the last assistant
      marker, or the empty string when there is no marker. */
  function ExtractAssistantResponse(fullText: string): (r: string)
    ensures !IsSubstring(AssistantMarker, fullText) ==> r == ""
    ensures IsSubstring(AssistantMarker, fullText) ==>
      exists idx :: IsLastOccurrence(fullText, AssistantMarker, idx)
                    && r == Trim(fullText[idx + |AssistantMarker|..])
  {
    var idx := LastIndexOf(fullText, AssistantMarker);
    MarkerLength();
    if idx < 0 then ""
    else
      assert IsLastOccurrence(fullText, AssistantMarker, idx);
      Trim(fullText[idx + 14..])
  }

  /** `idx` is where the last occurrence of `pat` in `s` starts. */
  ghost predicate IsLastOccurrence(s: string, pat: string, idx: int)
  {
    OccursAt(s, pat, idx) && forall j :: idx < j ==> !OccursAt(s, pat, j)
  }

  /** Without a marker there is no reply. */
  lemma NoMarkerNoResponse(fullText: string)
    requires !IsSubstring(AssistantMarker, fullText)
    ensures ExtractAssistantResponse(fullText) == ""
  {
  }

  /** With a marker, the reply is the trimmed text that follows the last one. */
  lemma ResponseFollowsLastMarker(fullText: string, idx: int)
    requires IsLastOccurrence(fullText, AssistantMarker, idx)
    ensures ExtractAssistantResponse(fullText) == Trim(fullText[idx + |AssistantMarker|..])
  {
    MarkerLength();
    LastIndexOfIsLast(fullText, AssistantMarker, idx);
  }

  /** When the prompt ends with the marker and no later occurrence of the
      marker starts in the text generated after it, the reply is exactly the
      generated text, trimmed. */
  lemma ExtractAfterPrompt(prompt: string, generated: string)
    requires |prompt| >= |AssistantMarker|
    requires prompt[|prompt| - |AssistantMarker|..] == AssistantMarker
    requires forall j :: |prompt| - |AssistantMarker| < j ==> !OccursAt(prompt + generated, AssistantMarker, j)
    ensures ExtractAssistantResponse(prompt + generated) == Trim(generated)
  {
    var t := prompt + generated;
    var at := |prompt| - |AssistantMarker|;
    assert t[at..at + |AssistantMarker|] == AssistantMarker;
    ResponseFollowsLastMarker(t, at);
    assert t[at + |AssistantMarker|..] == generated;
  }

  /** Right after a prompt is set, there is no reply yet. */
  lemma NoResponseForBarePrompt(state: CompanionState)
    ensures ExtractAssistantResponse(BuildPromptForState(state)) == ""
  {
    var p := BuildPromptForState(state);
    assert p + "" == p;
    ExtractAfterPrompt(p, "");
  }

  // ---------------------------------------------------------------------
  // The fixed input buffers
  // ---------------------------------------------------------------------

  /** `n` copies of `v`. */
  function Repeat(v: int, n: nat): (r: seq<int>)
    ensures |r| == n && forall i :: 0 <= i < n ==> r[i] == v
  {
    if n == 0 then [] else [v] + Repeat(v, n - 1)
  }

  /** The token-id buffer after a refill from `tokens`. */
  function BufferIds(tokens: seq<int>, capacity: nat): seq<int>
  {
    seq(capacity, i requires 0 <= i < capacity => if i < |tokens| then tokens[i] else 0)
  }

  /** The attention-mask buffer after a refill from `tokens`. */
  function BufferMask(tokens: seq<int>, capacity: nat): seq<int>
  {
    seq(capacity, i requires 0 <= i < capacity => if i < |tokens| then 1 else 0)
  }

  /** A history that fits is copied whole and padded with id 0 / mask 0. */
  lemma BufferOfFittingHistory(tokens: seq<int>, capacity: nat)
    requires |tokens| <= capacity
    ensures BufferIds(tokens, capacity) == tokens + Repeat(0, capacity - |tokens|)
    ensures BufferMask(tokens, capacity) == Repeat(1, |tokens|) + Repeat(0, capacity - |tokens|)
  {
  }

  /** A history longer than the buffer loses its tail: only the first
      `capacity` tokens reach the model, all of them unmasked. */
  lemma BufferDropsOverflow(tokens: seq<int>, capacity: nat)
    requires |tokens| >= capacity
    ensures BufferIds(tokens, capacity) == tokens[..capacity]
    ensures BufferMask(tokens, capacity) == Repeat(1, capacity)
    ensures BufferIds(tokens, capacity) == BufferIds(tokens[..capacity], capacity)
  {
  }

  /** The refill of history [5, 9, 2] into a buffer of six positions. */
  lemma RefillExample()
    ensures BufferIds([5, 9, 2], 6) == [5, 9, 2, 0, 0, 0]
    ensures BufferMask([5, 9, 2], 6) == [1, 1, 1, 0, 0, 0]
  {
    BufferOfFittingHistory([5, 9, 2], 6);
  }

  // ---------------------------------------------------------------------
  // The generation session
  // ---------------------------------------------------------------------

  /** The Phi-3 end-of-sequence ids. */
  const EosTokens: seq<int> := [32000, 32001, 32007]

  /** The text of `ids` decoded one token at a time, as the session appends it. */
  function DecodeEach(decode: seq<int> -> string, ids: seq<int>): string
  {
    if ids == [] then "" else DecodeEach(decode, ids[..|ids| - 1]) + decode([ids[|ids| - 1]])
  }

  /** max(0, n). */
  function Budget(n: int): nat
  {
    if n < 0 then 0 else n
  }

  /** A session's tokens are the encoded prompt followed by the generated
      tokens, none of them an end-of-sequence id and no more of them than
      the budget allows; its text is the prompt followed by each generated
      token decoded in turn. */
  ghost predicate IsSession(tokens: seq<int>, promptLength: int, fullText: string,
                            prompt: string, maxTokens: int, capacity: nat,
                            encode: string -> seq<int>, decode: seq<int> -> string)
  {
    && 0 <= promptLength <= |tokens|
    && promptLength < capacity
    && tokens[..promptLength] == encode(prompt)
    && |tokens| - promptLength <= Budget(maxTokens)
    && (forall i :: promptLength <= i < |tokens| ==> tokens[i] !in EosTokens)
    && fullText == prompt + DecodeEach(decode, tokens[promptLength..])
  }

  /** A freshly accepted prompt is a session with nothing generated. */
  lemma SessionStarts(prompt: string, maxTokens: int, capacity: nat,
                      encode: string -> seq<int>, decode: seq<int> -> string)
    requires |encode(prompt)| < capacity
    ensures IsSession(encode(prompt), |encode(prompt)|, prompt, prompt, maxTokens, capacity, encode, decode)
  {
    var t := encode(prompt);
    assert t[|t|..] == [];
    assert t[..|t|] == t;
  }

  /** Appending a token that is not end-of-sequence, while the budget is
      not spent, keeps a session a session: the prompt prefix is untouched,
      the token is generated and its text is appended. */
  lemma {:induction false} SessionAppend(tokens: seq<int>, promptLength: int, fullText: string,
                      prompt: string, maxTokens: int, capacity: nat,
                      encode: string -> seq<int>, decode: seq<int> -> string, next: int)
    requires IsSession(tokens, promptLength, fullText, prompt, maxTokens, capacity, encode, decode)
    requires next !in EosTokens && |tokens| - promptLength < maxTokens
    ensures IsSession(tokens + [next], promptLength, fullText + decode([next]),
                      prompt, maxTokens, capacity, encode, decode)
    ensures (tokens + [next])[..promptLength] == tokens[..promptLength]
  {
    var t := tokens + [next];
    assert t[promptLength..] == tokens[promptLength..] + [next];
    assert t[..promptLength] == tokens[..promptLength];
    assert t[promptLength..][..|t[promptLength..]| - 1] == tokens[promptLength..];
  }

  /** The inference engine's output is always one the sampler can read. */
  ghost predicate OutputsReadable(model: (seq<int>, seq<int>) -> Option<Tensor>)
  {
    forall ids, mask :: model(ids, mask).Some? ==> SliceReadable(model(ids, mask).value)
  }

  /** The logits the sampler reads: `vocabSize` entries from `offset`. */
  function Slice(logits: Tensor, offset: int, vocabSize: int): seq<real>
    requires 0 <= offset && 0 <= vocabSize && offset + vocabSize <= |logits.data|
  {
    logits.data[offset..offset + vocabSize]
  }

  /** Entry `i` of the slice and its weight, read at their tensor positions. */
  lemma SliceEntry(logits: Tensor, offset: int, vocabSize: int, m: real, scaledExp: real -> real, i: nat)
    requires 0 <= offset && 0 <= vocabSize && offset + vocabSize <= |logits.data| && i < vocabSize
    ensures Slice(logits, offset, vocabSize)[i] == logits.data[offset + i]
    ensures Weights(Slice(logits, offset, vocabSize), m, scaledExp)[i]
            == scaledExp(logits.data[offset + i] - m)
  {
  }

  class Phi3Execution {
    // Settings (inspector fields).
    const maxTokens: int
    const maxSequenceLength: nat
    // The tokenizer's Encode and Decode, and x |-> exp(x / temperature).
    const encode: string -> seq<int>
    const decode: seq<int> -> string
    const scaledExp: real -> real

    var currentState: CompanionState
    var isInitialized: bool

    // The session.
    var tokens: seq<int>
    var initialPromptLength: int
    var isRunning: bool
    var fullText: string

    // The persistent tensors of shape [1, maxSequenceLength].
    const inputIds: array<int>
    const attentionMask: array<int>

    // The prompt of the session that was last accepted, and whether the
    // session fields still describe it (a rejected prompt overwrites
    // `tokens` and `fullText` but not `initialPromptLength`).
    ghost var promptText: string
    ghost var inSession: bool

    /** The fields describe the session started from `promptText`: its tokens
        are the prompt's followed by the generated ones, none of them an
        end-of-sequence id, within the token budget, and the text is the
        prompt followed by each generated token decoded in turn. */
    ghost predicate SessionInvariant()
      reads this
    {
      IsSession(tokens, initialPromptLength, fullText, promptText, maxTokens,
                maxSequenceLength, encode, decode)
    }

    ghost predicate Valid()
      reads this
    {
      && inputIds.Length == maxSequenceLength
      && attentionMask.Length == maxSequenceLength
      && inputIds != attentionMask
      && (isRunning ==> isInitialized && inSession)
      && (inSession ==> SessionInvariant())
    }

    /** Start(): the tokenizer and model load when both assets are present,
        and the fixed buffers are allocated. */
    constructor (assetsPresent: bool, maxTokens: int, maxSequenceLength: nat,
                 encode: string -> seq<int>, decode: seq<int> -> string,
                 scaledExp: real -> real)
      ensures Valid()
      ensures isInitialized == assetsPresent && !isRunning
      ensures currentState == FOLLOW && tokens == [] && fullText == ""
      ensures this.maxTokens == maxTokens && this.maxSequenceLength == maxSequenceLength
      ensures this.encode == encode && this.decode == decode && this.scaledExp == scaledExp
      ensures fresh(inputIds) && fresh(attentionMask)
    {
      this.maxTokens := maxTokens;
      this.maxSequenceLength := maxSequenceLength;
      this.encode := encode;
      this.decode := decode;
      this.scaledExp := scaledExp;
      currentState := FOLLOW;
      isInitialized := assetsPresent;
      tokens := [];
      initialPromptLength := 0;
      isRunning := false;
      fullText := "";
      inputIds := new int[maxSequenceLength];
      attentionMask := new int[maxSequenceLength];
      promptText := "";
      inSession := false;
    }

    /** IsGenerating. */
    function IsGenerating(): bool
      reads this
    {
      isRunning
    }

    /** GetLastResponse(). */
    function GetLastResponse(): string
      reads this
    {
      ExtractAssistantResponse(fullText)
    }

    /** The state-change command: a new state is recorded and, when the model
        is ready and idle, a response for it is generated. */
    method SetState(state: CompanionState)
      requires Valid()
      modifies this
      ensures Valid()
      ensures state == old(currentState) ==> unchanged(this)
      ensures state != old(currentState) ==> currentState == state && isInitialized == old(isInitialized)
      ensures state != old(currentState) && old(isInitialized && !isRunning) ==>
        StartedFrom(BuildPromptForState(state), old(initialPromptLength))
      ensures state != old(currentState) && !old(isInitialized && !isRunning) ==>
        tokens == old(tokens) && fullText == old(fullText) && isRunning == old(isRunning)
        && initialPromptLength == old(initialPromptLength)
    {
      if state == currentState {
        return;
      }
      currentState := state;
      if isInitialized && !isRunning {
        GenerateResponse(state);
      }
    }

    /** The session fields after StartGeneration(prompt), given the prompt
        length recorded before it. */
    ghost predicate StartedFrom(prompt: string, priorPromptLength: int)
      reads this
    {
      && fullText == prompt
      && tokens == encode(prompt)
      && (if |tokens| < maxSequenceLength
          then isRunning == (maxTokens > 0) && initialPromptLength == |tokens|
          else !isRunning && initialPromptLength == priorPromptLength)
    }

    /** Generates a response for `state`, unless the model is not ready or a
        generation is already running. */
    method GenerateResponse(state: CompanionState)
      requires Valid()
      modifies this
      ensures Valid()
      ensures currentState == old(currentState) && isInitialized == old(isInitialized)
      ensures !old(isInitialized && !isRunning) ==> unchanged(this)
      ensures old(isInitialized && !isRunning) ==>
        StartedFrom(BuildPromptForState(state), old(initialPromptLength))
    {
      if !isInitialized || isRunning {
        return;
      }
      var prompt := BuildPromptForState(state);
      StartGeneration(prompt);
    }

    /** Seeds the session with the encoded prompt; a prompt that does not
        leave room in the buffer is rejected after `tokens` and `fullText`
        have already been replaced. Starting the coroutine runs the
        generation loop up to its first yield, so the budget check of the
        first pass happens here: with no token budget the session stops
        before StartGeneration returns. */
    method StartGeneration(prompt: string)
      requires Valid() && isInitialized && !isRunning
      modifies this
      ensures Valid()
      ensures currentState == old(currentState) && isInitialized == old(isInitialized)
      ensures StartedFrom(prompt, old(initialPromptLength))
      ensures isRunning ==> promptText == prompt && tokens[..initialPromptLength] == encode(prompt)
    {
      fullText := prompt;
      tokens := [];
      tokens := tokens + encode(prompt);
      if |tokens| >= maxSequenceLength {
        inSession := false;
        return;
      }
      SessionStarts(prompt, maxTokens, maxSequenceLength, encode, decode);
      initialPromptLength := |tokens|;
      isRunning := true;
      promptText := prompt;
      inSession := true;
      if |tokens| - initialPromptLength >= maxTokens {
        StopGeneration();
      }
    }

    /** StopGeneration: ends the session; the Debug output is not modelled. */
    method StopGeneration()
      requires Valid()
      modifies this`isRunning
      ensures Valid() && !isRunning
    {
      isRunning := false;
    }

    /** Refills both buffers from the whole history; positions past the
        buffer's end are never written. */
    method FillBuffers()
      requires Valid()
      modifies inputIds, attentionMask
      ensures inputIds[..] == BufferIds(tokens, maxSequenceLength)
      ensures attentionMask[..] == BufferMask(tokens, maxSequenceLength)
    {
      var i := 0;
      while i < maxSequenceLength
        invariant 0 <= i <= maxSequenceLength
        invariant forall k :: 0 <= k < i ==> inputIds[k] == (if k < |tokens| then tokens[k] else 0)
        invariant forall k :: 0 <= k < i ==> attentionMask[k] == (if k < |tokens| then 1 else 0)
      {
        if i < |tokens| {
          inputIds[i] := tokens[i];
          attentionMask[i] := 1;
        } else {
          inputIds[i] := 0;
          attentionMask[i] := 0;
        }
        i := i + 1;
      }
    }

    /** The token the sampler picks from a readable output for draw `r`. */
    function NextToken(logits: Tensor, r: real): int
      requires SliceReadable(logits)
    {
      var s := Slice(logits, Offset(logits), VocabSize(logits));
      Select(Weights(s, MaxFrom(FloatMinValue, s), scaledExp), r)
    }

    /** Temperature sampling over the `vocabSize` logits at `offset`, with the
        draw `r` (UnityEngine.Random.value) not scaled by the total weight:
        the first index whose cumulative weight reaches `r`, else the last. */
    method SampleWithTemperature(logits: Tensor, offset: int, vocabSize: int, r: real)
      returns (index: int)
      requires 0 <= offset && 0 <= vocabSize && offset + vocabSize <= |logits.data|
      ensures vocabSize >= 1 ==> 0 <= index < vocabSize
      ensures vocabSize == 0 ==> index == -1
      ensures var s := Slice(logits, offset, vocabSize);
        index == Select(Weights(s, MaxFrom(FloatMinValue, s), scaledExp), r)
    {
      ghost var s := Slice(logits, offset, vocabSize);
      var max := FloatMinValue;
      var i := 0;
      while i < vocabSize
        invariant 0 <= i <= vocabSize
        invariant MaxFrom(max, s[i..]) == MaxFrom(FloatMinValue, s)
      {
        MaxFromStep(max, s, i);
        SliceEntry(logits, offset, vocabSize, max, scaledExp, i);
        max := Max(max, logits.data[offset + i]);
        i := i + 1;
      }
      assert s[vocabSize..] == [];
      assert max == MaxFrom(FloatMinValue, s);
      ghost var ws := Weights(s, max, scaledExp);
      var sum := 0.0;
      i := 0;
      while i < vocabSize
        invariant 0 <= i <= vocabSize
        invariant SelectFrom(ws, r, i, sum) == Select(ws, r)
      {
        var p := scaledExp(logits.data[offset + i] - max);
        SliceEntry(logits, offset, vocabSize, max, scaledExp, i);
        SelectStep(ws, r, i, sum);
        sum := sum + p;
        if r <= sum {
          SelectInRange(ws, r);
          return i;
        }
        i := i + 1;
      }
      SelectInRange(ws, r);
      return vocabSize - 1;
    }

    /** RunInferenceStep: refill, infer, sample, then stop on a missing
        output or an end-of-sequence id, or append the token and its text. */
    method RunInferenceStep(model: (seq<int>, seq<int>) -> Option<Tensor>, r: real)
      requires Valid() && isRunning && OutputsReadable(model)
      requires |tokens| - initialPromptLength < maxTokens
      modifies this, inputIds, attentionMask
      ensures Valid()
      ensures currentState == old(currentState) && isInitialized == old(isInitialized)
      ensures initialPromptLength == old(initialPromptLength)
      ensures inSession == old(inSession) && promptText == old(promptText)
      ensures inputIds[..] == BufferIds(old(tokens), maxSequenceLength)
      ensures attentionMask[..] == BufferMask(old(tokens), maxSequenceLength)
      ensures var out := model(inputIds[..], attentionMask[..]);
        if out.None? || NextToken(out.value, r) in EosTokens then
          !isRunning && tokens == old(tokens) && fullText == old(fullText)
        else
          var next := NextToken(out.value, r);
          isRunning && tokens == old(tokens) + [next]
          && fullText == old(fullText) + decode([next])
    {
      FillBuffers();
      var output := model(inputIds[..], attentionMask[..]);
      if output.None? {
        StopGeneration();
        return;
      }
      var logits := output.value;
      var vocabSize := VocabSize(logits);
      var seqLen: int := SeqLen(logits);
      var offset: int := (seqLen - 1) * vocabSize;
      var nextToken := SampleWithTemperature(logits, offset, vocabSize, r);
      if nextToken in EosTokens {
        StopGeneration();
        return;
      }
      SessionAppend(tokens, initialPromptLength, fullText, promptText, maxTokens,
                    maxSequenceLength, encode, decode, nextToken);
      tokens := tokens + [nextToken];
      fullText := fullText + decode([nextToken]);
    }

    /** One iteration of GenerationLoop: nothing once the session has
        ended; a stop, with no refill and no sampling, once the budget of
        generated tokens is spent; otherwise one inference step. */
    method GenerationStep(model: (seq<int>, seq<int>) -> Option<Tensor>, r: real)
      requires Valid() && OutputsReadable(model)
      modifies this, inputIds, attentionMask
      ensures Valid()
      ensures currentState == old(currentState) && isInitialized == old(isInitialized)
      ensures initialPromptLength == old(initialPromptLength)
      ensures isRunning ==> old(isRunning)
      ensures !old(isRunning) ==> unchanged(this, inputIds, attentionMask)
      ensures old(isRunning) && old(|tokens| - initialPromptLength) >= maxTokens ==>
        !isRunning && tokens == old(tokens) && fullText == old(fullText)
        && unchanged(inputIds, attentionMask)
      ensures old(isRunning) && old(|tokens| - initialPromptLength) < maxTokens ==>
        inputIds[..] == BufferIds(old(tokens), maxSequenceLength)
        && attentionMask[..] == BufferMask(old(tokens), maxSequenceLength)
        && var out := model(inputIds[..], attentionMask[..]);
        if out.None? || NextToken(out.value, r) in EosTokens then
          !isRunning && tokens == old(tokens) && fullText == old(fullText)
        else
          var next := NextToken(out.value, r);
          isRunning && tokens == old(tokens) + [next]
          && fullText == old(fullText) + decode([next])
      ensures old(inSession) ==>
        inSession && promptText == old(promptText)
        && tokens[..initialPromptLength] == old(tokens)[..initialPromptLength]
    {
      if !isRunning {
        return;
      }
      if |tokens| - initialPromptLength >= maxTokens {
        StopGeneration();
        return;
      }
      RunInferenceStep(model, r);
    }
  }
}
