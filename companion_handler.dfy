// The command handler: classifies a free-text command into a companion
// state by ordered keyword groups and forwards it to the generation
// controller when that is idle.
module Companion {
  import opened CompanionStates
  import opened Strings
  import Phi3
  import opened Sampling

  // ---------------------------------------------------------------------
  // Keyword classification
  // ---------------------------------------------------------------------

  const FollowKeywords: seq<string> :=
    ["follow", "come with me", "stay close", "behind me", "come here"]
  const ProtectKeywords: seq<string> :=
    ["protect", "guard", "defend", "shield", "watch my back", "cover me"]
  const HealKeywords: seq<string> :=
    ["heal", "help", "hurt", "injured", "health", "restore", "fix me", "need healing"]
  const RunAroundKeywords: seq<string> :=
    ["scout", "explore", "run around", "check area", "search", "patrol", "look around"]

  /** Whether some keyword is a substring of `text`, trying them in order. */
  function ContainsAny(text: string, keywords: seq<string>): (b: bool)
    ensures b <==> exists i :: 0 <= i < |keywords| && IsSubstring(keywords[i], text)
  {
    if keywords == [] then false
    else if Contains(text, keywords[0]) then true
    else
      var rest := ContainsAny(text, keywords[1..]);
      assert forall i :: 1 <= i < |keywords| ==> keywords[i] == keywords[1..][i - 1];
      rest
  }

  /** The state for a command: the first keyword group, in the order FOLLOW,
      PROTECT, HEAL, RUN_AROUND, with a keyword in the lower-cased input;
      `lastState` when none has. */
  function ParseStateFromKeywords(input: string, lastState: CompanionState): CompanionState
  {
    var lowerInput := ToLower(input);
    if ContainsAny(lowerInput, FollowKeywords) then FOLLOW
    else if ContainsAny(lowerInput, ProtectKeywords) then PROTECT
    else if ContainsAny(lowerInput, HealKeywords) then HEAL
    else if ContainsAny(lowerInput, RunAroundKeywords) then RUN_AROUND
    else lastState
  }

  /** The AI-based parser is not implemented and falls back to the keywords. */
  function ParseStateWithAI(input: string, lastState: CompanionState): (r: CompanionState)
    ensures r == ParseStateFromKeywords(input, lastState)
  {
    ParseStateFromKeywords(input, lastState)
  }

  /** The keyword groups as a priority table, highest priority first. */
  const KeywordGroups: seq<(CompanionState, seq<string>)> :=
    [(FOLLOW, FollowKeywords), (PROTECT, ProtectKeywords),
     (HEAL, HealKeywords), (RUN_AROUND, RunAroundKeywords)]

  /** Group `i` of `groups` has a keyword in `text`. */
  ghost predicate GroupMatches(groups: seq<(CompanionState, seq<string>)>, text: string, i: int)
    requires 0 <= i < |groups|
  {
    exists k :: 0 <= k < |groups[i].1| && IsSubstring(groups[i].1[k], text)
  }

  /** Reference classifier over a priority table, reading it from group
      `from` on: the state of the first group that matches, else `fallback`. */
  function FirstMatchingFrom(groups: seq<(CompanionState, seq<string>)>, text: string,
                             fallback: CompanionState, from: nat): CompanionState
    decreases |groups| - from
  {
    if from >= |groups| then fallback
    else if ContainsAny(text, groups[from].1) then groups[from].0
    else FirstMatchingFrom(groups, text, fallback, from + 1)
  }

  function FirstMatching(groups: seq<(CompanionState, seq<string>)>, text: string,
                         fallback: CompanionState): CompanionState
  {
    FirstMatchingFrom(groups, text, fallback, 0)
  }

  lemma {:induction false} FirstMatchingFromWins(groups: seq<(CompanionState, seq<string>)>, text: string,
                                                 fallback: CompanionState, from: nat, i: nat)
    requires from <= i < |groups| && GroupMatches(groups, text, i)
    requires forall j :: from <= j < i ==> !GroupMatches(groups, text, j)
    ensures FirstMatchingFrom(groups, text, fallback, from) == groups[i].0
    decreases i - from
  {
    if from < i {
      assert !GroupMatches(groups, text, from);
      FirstMatchingFromWins(groups, text, fallback, from + 1, i);
    }
  }

  /** The first matching group decides: a text that matches several groups
      gets the earliest of them. */
  lemma FirstMatchingWins(groups: seq<(CompanionState, seq<string>)>, text: string,
                          fallback: CompanionState, i: nat)
    requires i < |groups| && GroupMatches(groups, text, i)
    requires forall j :: 0 <= j < i ==> !GroupMatches(groups, text, j)
    ensures FirstMatching(groups, text, fallback) == groups[i].0
  {
    FirstMatchingFromWins(groups, text, fallback, 0, i);
  }

  lemma {:induction false} FirstMatchingFromFallback(groups: seq<(CompanionState, seq<string>)>, text: string,
                                                     fallback: CompanionState, from: nat)
    requires forall j :: from <= j < |groups| ==> !GroupMatches(groups, text, j)
    ensures FirstMatchingFrom(groups, text, fallback, from) == fallback
    decreases |groups| - from
  {
    if from < |groups| {
      assert !GroupMatches(groups, text, from);
      FirstMatchingFromFallback(groups, text, fallback, from + 1);
    }
  }

  /** When no group matches, the fallback is returned. */
  lemma FirstMatchingFallback(groups: seq<(CompanionState, seq<string>)>, text: string,
                              fallback: CompanionState)
    requires forall j :: 0 <= j < |groups| ==> !GroupMatches(groups, text, j)
    ensures FirstMatching(groups, text, fallback) == fallback
  {
    FirstMatchingFromFallback(groups, text, fallback, 0);
  }

  /** The if-chain of the handler is the priority table read top down. */
  lemma ParseIsFirstMatchingGroup(input: string, lastState: CompanionState)
    ensures ParseStateFromKeywords(input, lastState)
            == FirstMatching(KeywordGroups, ToLower(input), lastState)
  {
    var t := ToLower(input);
    var g := KeywordGroups;
    assert FirstMatchingFrom(g, t, lastState, 4) == lastState;
    assert FirstMatchingFrom(g, t, lastState, 3)
           == if ContainsAny(t, RunAroundKeywords) then RUN_AROUND else lastState;
    assert FirstMatchingFrom(g, t, lastState, 2)
           == if ContainsAny(t, HealKeywords) then HEAL
              else FirstMatchingFrom(g, t, lastState, 3);
    assert FirstMatchingFrom(g, t, lastState, 1)
           == if ContainsAny(t, ProtectKeywords) then PROTECT
              else FirstMatchingFrom(g, t, lastState, 2);
  }

  /** Classification by priority: the earliest group with a keyword in the
      lower-cased input decides. */
  lemma EarliestGroupWins(input: string, lastState: CompanionState, i: nat)
    requires i < |KeywordGroups| && GroupMatches(KeywordGroups, ToLower(input), i)
    requires forall j :: 0 <= j < i ==> !GroupMatches(KeywordGroups, ToLower(input), j)
    ensures ParseStateFromKeywords(input, lastState) == KeywordGroups[i].0
  {
    ParseIsFirstMatchingGroup(input, lastState);
    FirstMatchingWins(KeywordGroups, ToLower(input), lastState, i);
  }

  /** With no keyword in the input, the previous state is kept. */
  lemma NoKeywordKeepsLastState(input: string, lastState: CompanionState)
    requires forall j :: 0 <= j < |KeywordGroups| ==> !GroupMatches(KeywordGroups, ToLower(input), j)
    ensures ParseStateFromKeywords(input, lastState) == lastState
  {
    ParseIsFirstMatchingGroup(input, lastState);
    FirstMatchingFallback(KeywordGroups, ToLower(input), lastState);
  }

  /** Matching ignores ASCII case: an input classifies as its lower-cased form. */
  lemma ParseIgnoresCase(input: string, lastState: CompanionState)
    ensures ParseStateFromKeywords(ToLower(input), lastState)
            == ParseStateFromKeywords(input, lastState)
  {
    ToLowerIsLower(input);
  }

  /** Every keyword is lower case, so it can match the lower-cased input. */
  lemma KeywordsAreLowerCase()
    ensures forall i, k :: 0 <= i < |KeywordGroups| && 0 <= k < |KeywordGroups[i].1|
                           ==> IsLower(KeywordGroups[i].1[k])
  {
    GroupIsLowerCase(FollowKeywords);
    GroupIsLowerCase(ProtectKeywords);
    GroupIsLowerCase(HealKeywords);
    GroupIsLowerCase(RunAroundKeywords);
  }

  /** The characters keywords are written with. */
  const KeywordLetters: set<char> :=
    {'a', 'b', 'c', 'd', 'e', 'f', 'g', 'h', 'i', 'j', 'k', 'l', 'm',
     'n', 'o', 'p', 'q', 'r', 's', 't', 'u', 'v', 'w', 'x', 'y', 'z', ' '}

  lemma GroupIsLowerCase(keywords: seq<string>)
    requires forall k :: 0 <= k < |keywords| ==> CharsIn(keywords[k], KeywordLetters)
    ensures forall k :: 0 <= k < |keywords| ==> IsLower(keywords[k])
  {
    forall k | 0 <= k < |keywords| ensures IsLower(keywords[k]) {
      LowerCaseAlphabet(keywords[k], KeywordLetters);
    }
  }

  /** A lower-case text holding a keyword of group `i` and none of an
      earlier group classifies as group `i`. */
  lemma ClassifiedLowerCase(t: string, lastState: CompanionState, i: nat)
    requires IsLower(t) && i < |KeywordGroups|
    requires ContainsAny(t, KeywordGroups[i].1)
    requires forall j :: 0 <= j < i ==> !ContainsAny(t, KeywordGroups[j].1)
    ensures ParseStateFromKeywords(t, lastState) == KeywordGroups[i].0
  {
    ToLowerOfLower(t);
    EarliestGroupWins(t, lastState, i);
  }

  // The four shortcut commands are shown to classify through their
  // alphabets: each lemma below first establishes which characters (and,
  // for "scout the area", which adjacent pairs) the literal command holds,
  // then classifies any text with those characters and that keyword.

  const FollowMeLetters: set<char> := {'f', 'o', 'l', 'w', ' ', 'm', 'e'}
  const ProtectMeLetters: set<char> := {'p', 'r', 'o', 't', 'e', 'c', ' ', 'm'}
  const HealMeLetters: set<char> := {'h', 'e', 'a', 'l', ' ', 'm'}
  const ScoutTheAreaLetters: set<char> := {'s', 'c', 'o', 'u', 't', ' ', 'h', 'e', 'a', 'r'}
  const ScoutTheAreaPairs: set<(char, char)> :=
    {('s', 'c'), ('c', 'o'), ('o', 'u'), ('u', 't'), ('t', ' '), (' ', 't'),
     ('t', 'h'), ('h', 'e'), ('e', ' '), (' ', 'a'), ('a', 'r'), ('r', 'e'), ('e', 'a')}

  /** SetFollowState's command classifies as FOLLOW. */
  lemma ShortcutFollow(t: string, lastState: CompanionState)
    requires t == "follow me"
    ensures ParseStateFromKeywords(t, lastState) == FOLLOW
  {
    assert CharsIn(t, FollowMeLetters) && OccursAt(t, FollowKeywords[0], 0);
    FollowByAlphabet(t, lastState);
  }

  lemma FollowByAlphabet(t: string, lastState: CompanionState)
    requires CharsIn(t, FollowMeLetters) && OccursAt(t, FollowKeywords[0], 0)
    ensures ParseStateFromKeywords(t, lastState) == FOLLOW
  {
    LowerCaseAlphabet(t, FollowMeLetters);
    ClassifiedLowerCase(t, lastState, 0);
  }

  /** SetProtectState's command classifies as PROTECT. */
  lemma ShortcutProtect(t: string, lastState: CompanionState)
    requires t == "protect me"
    ensures ParseStateFromKeywords(t, lastState) == PROTECT
  {
    assert CharsIn(t, ProtectMeLetters) && OccursAt(t, ProtectKeywords[0], 0);
    ProtectByAlphabet(t, lastState);
  }

  lemma ProtectByAlphabet(t: string, lastState: CompanionState)
    requires CharsIn(t, ProtectMeLetters) && OccursAt(t, ProtectKeywords[0], 0)
    ensures ParseStateFromKeywords(t, lastState) == PROTECT
  {
    LowerCaseAlphabet(t, ProtectMeLetters);
    NoFollowKeywordIn(t, ProtectMeLetters);
    ClassifiedLowerCase(t, lastState, 1);
  }

  /** SetHealState's command classifies as HEAL. */
  lemma ShortcutHeal(t: string, lastState: CompanionState)
    requires t == "heal me"
    ensures ParseStateFromKeywords(t, lastState) == HEAL
  {
    assert CharsIn(t, HealMeLetters) && OccursAt(t, HealKeywords[0], 0);
    HealByAlphabet(t, lastState);
  }

  lemma HealByAlphabet(t: string, lastState: CompanionState)
    requires CharsIn(t, HealMeLetters) && OccursAt(t, HealKeywords[0], 0)
    ensures ParseStateFromKeywords(t, lastState) == HEAL
  {
    LowerCaseAlphabet(t, HealMeLetters);
    NoFollowKeywordIn(t, HealMeLetters);
    NoProtectKeywordIn(t, HealMeLetters);
    ClassifiedLowerCase(t, lastState, 2);
  }

  /** SetRunAroundState's command classifies as RUN_AROUND. */
  lemma ShortcutRunAround(t: string, lastState: CompanionState)
    requires t == "scout the area"
    ensures ParseStateFromKeywords(t, lastState) == RUN_AROUND
  {
    assert CharsIn(t, ScoutTheAreaLetters) && PairsIn(t, ScoutTheAreaPairs);
    assert OccursAt(t, RunAroundKeywords[0], 0);
    RunAroundByAlphabet(t, lastState);
  }

  lemma RunAroundByAlphabet(t: string, lastState: CompanionState)
    requires CharsIn(t, ScoutTheAreaLetters) && PairsIn(t, ScoutTheAreaPairs)
    requires OccursAt(t, RunAroundKeywords[0], 0)
    ensures ParseStateFromKeywords(t, lastState) == RUN_AROUND
  {
    LowerCaseAlphabet(t, ScoutTheAreaLetters);
    NoEarlierGroupInScoutAlphabet(t);
    ClassifiedLowerCase(t, lastState, 3);
  }

  lemma NoEarlierGroupInScoutAlphabet(t: string)
    requires CharsIn(t, ScoutTheAreaLetters) && PairsIn(t, ScoutTheAreaPairs)
    ensures forall j :: 0 <= j < 3 ==> !ContainsAny(t, KeywordGroups[j].1)
  {
    NoFollowKeywordIn(t, ScoutTheAreaLetters);
    NoProtectKeywordIn(t, ScoutTheAreaLetters);
    NoHealKeywordIn(t, ScoutTheAreaLetters, ScoutTheAreaPairs);
  }

  /** A text over an alphabet without upper-case letters is lower case. */
  lemma LowerCaseAlphabet(t: string, letters: set<char>)
    requires CharsIn(t, letters) && forall c :: c in letters ==> !IsUpperAscii(c)
    ensures IsLower(t)
  {
  }

  /** A text whose alphabet lacks f, w, y and b, and one of h, c and m,
      holds no FOLLOW keyword. */
  lemma NoFollowKeywordIn(t: string, letters: set<char>)
    requires CharsIn(t, letters)
    requires 'f' !in letters && 'w' !in letters && 'y' !in letters && 'b' !in letters
    requires 'h' !in letters || 'c' !in letters || 'm' !in letters
    ensures !ContainsAny(t, FollowKeywords)
  {
    AbsentChar(t, letters, "follow", 0);
    AbsentChar(t, letters, "come with me", 5);
    AbsentChar(t, letters, "stay close", 3);
    AbsentChar(t, letters, "behind me", 0);
    if 'h' !in letters {
      AbsentChar(t, letters, "come here", 5);
    } else if 'c' !in letters {
      AbsentChar(t, letters, "come here", 0);
    } else {
      AbsentChar(t, letters, "come here", 2);
    }
  }

  /** A text whose alphabet lacks p, g, d, i, w and v holds no PROTECT keyword. */
  lemma NoProtectKeywordIn(t: string, letters: set<char>)
    requires CharsIn(t, letters)
    requires 'p' !in letters && 'g' !in letters && 'd' !in letters
    requires 'i' !in letters && 'w' !in letters && 'v' !in letters
    ensures !ContainsAny(t, ProtectKeywords)
  {
    AbsentChar(t, letters, "protect", 0);
    AbsentChar(t, letters, "guard", 0);
    AbsentChar(t, letters, "defend", 0);
    AbsentChar(t, letters, "shield", 2);
    AbsentChar(t, letters, "watch my back", 0);
    AbsentChar(t, letters, "cover me", 2);
  }

  /** A text whose alphabet lacks l, i, f and n, and in which "hu" and "es"
      are never adjacent, holds no HEAL keyword. */
  lemma NoHealKeywordIn(t: string, letters: set<char>, pairs: set<(char, char)>)
    requires CharsIn(t, letters) && PairsIn(t, pairs)
    requires 'l' !in letters && 'i' !in letters && 'f' !in letters && 'n' !in letters
    requires ('h', 'u') !in pairs && ('e', 's') !in pairs
    ensures !ContainsAny(t, HealKeywords)
  {
    AbsentChar(t, letters, "heal", 3);
    AbsentChar(t, letters, "help", 2);
    AbsentPair(t, pairs, "hurt", 0);
    AbsentChar(t, letters, "injured", 0);
    AbsentChar(t, letters, "health", 3);
    AbsentPair(t, pairs, "restore", 1);
    AbsentChar(t, letters, "fix me", 0);
    AbsentChar(t, letters, "need healing", 0);
  }

  // ---------------------------------------------------------------------
  // Input selection
  // ---------------------------------------------------------------------

  /** The command OnSubmitButtonClicked processes: the input field's text
      when there is a field and it is non-empty, else the inspector's manual
      input when non-empty, else none. */
  function SelectInput(hasInputField: bool, fieldText: string, manualInput: string): (r: Option<string>)
    ensures r.Some? ==> r.value != ""
    ensures r.None? <==> (!hasInputField || fieldText == "") && manualInput == ""
    ensures hasInputField && fieldText != "" ==> r == Some(fieldText)
    ensures !(hasInputField && fieldText != "") && manualInput != "" ==> r == Some(manualInput)
  {
    if hasInputField && fieldText != "" then Some(fieldText)
    else if manualInput != "" then Some(manualInput)
    else None
  }

  // ---------------------------------------------------------------------
  // The handler
  // ---------------------------------------------------------------------

  class CompanionHandler {
    const phi3Execution: Phi3.Phi3Execution
    // Whether an input field is attached, and its text.
    const hasInputField: bool
    var inputFieldText: string
    var manualInput: string
    const useAIForStateParsing: bool
    var lastState: CompanionState

    ghost predicate Valid()
      reads this, phi3Execution
    {
      phi3Execution.Valid()
    }

    constructor (phi3Execution: Phi3.Phi3Execution, hasInputField: bool,
                 manualInput: string, useAIForStateParsing: bool)
      requires phi3Execution.Valid()
      ensures Valid()
      ensures this.phi3Execution == phi3Execution && this.hasInputField == hasInputField
      ensures this.manualInput == manualInput && inputFieldText == ""
      ensures this.useAIForStateParsing == useAIForStateParsing && lastState == FOLLOW
    {
      this.phi3Execution := phi3Execution;
      this.hasInputField := hasInputField;
      inputFieldText := "";
      this.manualInput := manualInput;
      this.useAIForStateParsing := useAIForStateParsing;
      lastState := FOLLOW;
    }

    /** The state detected for `input` by the configured parser. */
    function DetectState(input: string, lastState: CompanionState): CompanionState
    {
      if useAIForStateParsing then ParseStateWithAI(input, lastState)
      else ParseStateFromKeywords(input, lastState)
    }

    /** What ProcessInput(input) does: nothing while the controller is
        generating; otherwise the detected state becomes `lastState` and the
        controller's state, and the controller, when initialised, has started
        a generation for it. */
    twostate predicate Processed(input: string)
      reads this, phi3Execution
    {
      var p := phi3Execution;
      if old(p.isRunning) then
        lastState == old(lastState) && unchanged(p)
      else
        && lastState == DetectState(input, old(lastState))
        && p.currentState == lastState
        && (old(p.isInitialized) ==>
              p.StartedFrom(Phi3.BuildPromptForState(lastState), old(p.initialPromptLength)))
        && (!old(p.isInitialized) ==>
              && !p.isRunning && p.tokens == old(p.tokens) && p.fullText == old(p.fullText)
              && p.initialPromptLength == old(p.initialPromptLength))
    }

    /** ProcessInput: the busy guard, the classification and the commands to
        the controller. The status text and the wait for the reply are UI. */
    method ProcessInput(input: string)
      requires Valid()
      modifies this, phi3Execution
      ensures Valid()
      ensures Processed(input)
      ensures inputFieldText == old(inputFieldText) && manualInput == old(manualInput)
      ensures phi3Execution.isInitialized == old(phi3Execution.isInitialized)
    {
      if phi3Execution.IsGenerating() {
        return;
      }
      var detectedState: CompanionState;
      if useAIForStateParsing {
        detectedState := ParseStateWithAI(input, lastState);
      } else {
        detectedState := ParseStateFromKeywords(input, lastState);
      }
      lastState := detectedState;
      phi3Execution.SetState(detectedState);
      phi3Execution.GenerateResponse(detectedState);
    }

    /** OnSubmitButtonClicked: the input field wins and is cleared, then the
        manual input, which is kept; with neither, nothing is processed. */
    method OnSubmitButtonClicked()
      requires Valid()
      modifies this, phi3Execution
      ensures Valid()
      ensures var sel := SelectInput(hasInputField, old(inputFieldText), old(manualInput));
        && manualInput == old(manualInput)
        && (sel.None? ==> unchanged(this, phi3Execution))
        && (sel.Some? ==> Processed(sel.value))
        && inputFieldText == (if hasInputField && old(inputFieldText) != "" then "" else old(inputFieldText))
    {
      var input := "";
      if hasInputField && inputFieldText != "" {
        input := inputFieldText;
        inputFieldText := "";
      } else if manualInput != "" {
        input := manualInput;
      } else {
        return;
      }
      ProcessInput(input);
    }

    /** SetFollowState: processes the command "follow me". */
    method SetFollowState()
      requires Valid()
      modifies this, phi3Execution
      ensures Valid() && Processed("follow me")
      ensures !old(phi3Execution.isRunning) ==> lastState == FOLLOW && phi3Execution.currentState == FOLLOW
    {
      ShortcutFollow("follow me", lastState);
      ProcessInput("follow me");
    }

    /** SetProtectState: processes the command "protect me". */
    method SetProtectState()
      requires Valid()
      modifies this, phi3Execution
      ensures Valid() && Processed("protect me")
      ensures !old(phi3Execution.isRunning) ==> lastState == PROTECT && phi3Execution.currentState == PROTECT
    {
      ShortcutProtect("protect me", lastState);
      ProcessInput("protect me");
    }

    /** SetHealState: processes the command "heal me". */
    method SetHealState()
      requires Valid()
      modifies this, phi3Execution
      ensures Valid() && Processed("heal me")
      ensures !old(phi3Execution.isRunning) ==> lastState == HEAL && phi3Execution.currentState == HEAL
    {
      ShortcutHeal("heal me", lastState);
      ProcessInput("heal me");
    }

    /** SetRunAroundState: processes the command "scout the area". */
    method SetRunAroundState()
      requires Valid()
      modifies this, phi3Execution
      ensures Valid() && Processed("scout the area")
      ensures !old(phi3Execution.isRunning) ==> lastState == RUN_AROUND && phi3Execution.currentState == RUN_AROUND
    {
      ShortcutRunAround("scout the area", lastState);
      ProcessInput("scout the area");
    }
  }
}
