/**
 * The recipe chat route: reading a method choice from a reply, replaying the
 * conversation into its state (target, "awaiting a method" flag, selected
 * method), and the order in which the handler decides its answer.
 */
module RecipeRoute {
  import opened Wrappers
  import Text
  import EP = ElementParser
  import opened SynthesisMethods
  import SynthesisData
  import opened RecipeGenerator

  datatype Role = User | Assistant

  datatype Message = Message(role: Role, content: string)

  // ---------------------------------------------------------------
  // Method selection
  // ---------------------------------------------------------------

  /** The reply as the selection rules see it: lower-cased, then trimmed. */
  function Normalized(input: string): string {
    Text.Trim(Text.Lower(input))
  }

  /** `parseMethodSelection`: the first rule that matches decides. */
  function ParseMethodSelection(input: string): Option<string> {
    var lower := Normalized(input);
    if lower == "1" || Text.Contains(lower, "solid") then Some("solid-state")
    else if lower == "2" || Text.Contains(lower, "sol") || Text.Contains(lower, "gel") then Some("sol-gel")
    else if lower == "3" || Text.Contains(lower, "hydro") || Text.Contains(lower, "수열") then Some("hydrothermal")
    else if lower == "4" || Text.Contains(lower, "solution") || Text.Contains(lower, "용액") then Some("solution")
    else if Text.Contains(lower, "고상") then Some("solid-state")
    else if Text.Contains(lower, "솔겔") || Text.Contains(lower, "솔-겔") then Some("sol-gel")
    else None
  }

  /** Every word some rule of `parseMethodSelection` looks for. */
  const SelectionKeywords: seq<string> := ["solid", "sol", "gel", "hydro", "수열", "solution", "용액", "고상", "솔겔", "솔-겔"]

  /** A one-character reply holds none of the keywords, which are all longer. */
  lemma ShortReplyHasNoKeyword(lower: string)
    requires |lower| == 1
    ensures !Text.ContainsAny(lower, SelectionKeywords)
  {
    forall k | 0 <= k < |SelectionKeywords|
      ensures !Text.Contains(lower, SelectionKeywords[k])
    {
      Text.ContainsIff(lower, SelectionKeywords[k]);
    }
  }

  /** Holding some selection keyword, spelled out. */
  lemma SelectionKeywordsSpelled(lower: string)
    ensures Text.ContainsAny(lower, SelectionKeywords) <==>
      || Text.Contains(lower, "solid") || Text.Contains(lower, "sol") || Text.Contains(lower, "gel")
      || Text.Contains(lower, "hydro") || Text.Contains(lower, "수열") || Text.Contains(lower, "solution")
      || Text.Contains(lower, "용액") || Text.Contains(lower, "고상") || Text.Contains(lower, "솔겔")
      || Text.Contains(lower, "솔-겔")
  {
    var kws := SelectionKeywords;
    assert kws[0] == "solid" && kws[1] == "sol" && kws[2] == "gel" && kws[3] == "hydro" && kws[4] == "수열";
    assert kws[5] == "solution" && kws[6] == "용액" && kws[7] == "고상" && kws[8] == "솔겔" && kws[9] == "솔-겔";
  }

  /** A reply selects nothing exactly when it is no digit 1-4 and holds no keyword. */
  lemma SelectionNoneIff(input: string)
    ensures ParseMethodSelection(input).None? <==>
      Normalized(input) !in ["1", "2", "3", "4"] && !Text.ContainsAny(Normalized(input), SelectionKeywords)
  {
    SelectionKeywordsSpelled(Normalized(input));
  }

  /** A bare digit from 1 to 4 picks the route listed under that number in the menu. */
  lemma DigitSelects(input: string, k: nat)
    requires 1 <= k <= 4 && Normalized(input) == [Text.DigitChar(k)]
    ensures ParseMethodSelection(input) == Some(MethodIds[k - 1])
  {
    var lower := Normalized(input);
    ShortReplyHasNoKeyword(lower);
    assert !Text.Contains(lower, SelectionKeywords[0]);
    assert !Text.Contains(lower, SelectionKeywords[1]);
    assert !Text.Contains(lower, SelectionKeywords[2]);
    assert !Text.Contains(lower, SelectionKeywords[3]);
    assert !Text.Contains(lower, SelectionKeywords[4]);
    assert !Text.Contains(lower, SelectionKeywords[5]);
    assert !Text.Contains(lower, SelectionKeywords[6]);
  }

  /** "solution" holds "sol". */
  lemma SolutionHoldsSol(lower: string)
    requires Text.Contains(lower, "solution")
    ensures Text.Contains(lower, "sol")
  {
    assert "solution"[0..3] == "sol";
    Text.ContainsAt("solution", "sol", 0);
    Text.ContainsTransitive(lower, "solution", "sol");
  }

  /** A "sol" or "gel" without "solid" reads as sol-gel. */
  lemma SolOrGelIsSolGel(input: string)
    requires Text.Contains(Normalized(input), "sol") || Text.Contains(Normalized(input), "gel")
    requires !Text.Contains(Normalized(input), "solid")
    ensures ParseMethodSelection(input) == Some("sol-gel")
  {
    var lower := Normalized(input);
    if lower == "1" {
      Text.ContainsIff(lower, "sol");
      Text.ContainsIff(lower, "gel");
    }
  }

  /**
   * The word "solution" never selects the solution route, since its "sol"
   * is caught by the sol-gel rule first.
   */
  lemma SolutionWordIsNotSolution(input: string)
    requires Text.Contains(Normalized(input), "solution")
    ensures ParseMethodSelection(input) == Some(if Text.Contains(Normalized(input), "solid") || Normalized(input) == "1" then "solid-state" else "sol-gel")
  {
    SolutionHoldsSol(Normalized(input));
  }

  /** The solution route is reached only through "4" or "용액". */
  lemma SolutionOnlyByFourOrKorean(input: string)
    requires ParseMethodSelection(input) == Some("solution")
    ensures Normalized(input) == "4" || Text.Contains(Normalized(input), "용액")
  {
    if Text.Contains(Normalized(input), "solution") {
      SolutionHoldsSol(Normalized(input));
    }
  }

  /** Every selection is a catalog route id. */
  lemma SelectionIsRouteId(input: string)
    requires ParseMethodSelection(input).Some?
    ensures ParseMethodSelection(input).value in MethodIds
  {
  }

  // ---------------------------------------------------------------
  // Conversation state
  // ---------------------------------------------------------------

  datatype ConversationState = ConversationState(
    targetMaterial: Option<string>,
    awaitingMethodSelection: bool,
    selectedMethod: Option<string>)

  const Start := ConversationState(None, false, None)

  /** The target a message offers: what `extractTargetMaterial` finds in a user message. */
  function Extracted(msg: Message): Option<string> {
    if msg.role == User then EP.TargetFrom(msg.content, EP.TargetPatterns) else None
  }

  /** An assistant message that asks for a route, in either language. */
  predicate AsksForMethod(content: string) {
    Text.Contains(content, MenuTrigger(Korean)) || Text.Contains(content, MenuTrigger(English))
  }

  /** One turn of `getConversationState`'s loop. */
  function Step(state: ConversationState, msg: Message): ConversationState {
    match msg.role
    case User =>
      var extracted := Extracted(msg);
      var detected := EP.MethodMentioned(msg.content);
      var parsed := ParseMethodSelection(msg.content);
      var target := if extracted.Some? then extracted else state.targetMaterial;
      var selected := if detected.Some? then detected else state.selectedMethod;
      if state.awaitingMethodSelection && parsed.Some? then ConversationState(target, false, parsed)
      else ConversationState(target, state.awaitingMethodSelection, selected)
    case Assistant =>
      if AsksForMethod(msg.content) then state.(awaitingMethodSelection := true) else state
  }

  /** The state after replaying `messages` from the start. */
  function StateAfter(messages: seq<Message>): ConversationState {
    if messages == [] then Start else Step(StateAfter(messages[..|messages| - 1]), messages[|messages| - 1])
  }

  lemma StateAfterSnoc(messages: seq<Message>, msg: Message)
    ensures StateAfter(messages + [msg]) == Step(StateAfter(messages), msg)
  {
    assert (messages + [msg])[..|messages|] == messages;
  }

  /** `getConversationState(messages)`. */
  method GetConversationState(messages: seq<Message>) returns (state: ConversationState)
    ensures state == StateAfter(messages)
  {
    var targetMaterial: Option<string> := None;
    var awaitingMethodSelection := false;
    var selectedMethod: Option<string> := None;
    var i := 0;
    while i < |messages|
      invariant 0 <= i <= |messages|
      invariant ConversationState(targetMaterial, awaitingMethodSelection, selectedMethod) == StateAfter(messages[..i])
    {
      var msg := messages[i];
      if msg.role == User {
        var extracted := EP.ExtractTargetMaterial(msg.content);
        if extracted.Some? {
          targetMaterial := extracted;
        }
        var detected := EP.DetectSynthesisMethod(msg.content);
        if detected.Some? {
          selectedMethod := detected;
        }
        if awaitingMethodSelection {
          var parsed := ParseMethodSelection(msg.content);
          if parsed.Some? {
            selectedMethod := parsed;
            awaitingMethodSelection := false;
          }
        }
      }
      if msg.role == Assistant {
        if AsksForMethod(msg.content) {
          awaitingMethodSelection := true;
        }
      }
      assert messages[..i + 1] == messages[..i] + [msg];
      StateAfterSnoc(messages[..i], msg);
      i := i + 1;
    }
    assert messages[..i] == messages;
    state := ConversationState(targetMaterial, awaitingMethodSelection, selectedMethod);
  }

  /** The target of a turn: the message's extraction if any, else the one before. */
  lemma StepTarget(state: ConversationState, msg: Message)
    ensures Step(state, msg).targetMaterial == if Extracted(msg).Some? then Extracted(msg) else state.targetMaterial
  {
  }

  /** The last value `offer` gives for any message, read from the end. */
  function LatestOffer(messages: seq<Message>, offer: Message -> Option<string>): Option<string> {
    if messages == [] then None
    else if offer(messages[|messages| - 1]).Some? then offer(messages[|messages| - 1])
    else LatestOffer(messages[..|messages| - 1], offer)
  }

  /** The last extraction any message yields. */
  function LatestExtraction(messages: seq<Message>): Option<string> {
    LatestOffer(messages, Extracted)
  }

  lemma {:induction false} TargetIsLatest(messages: seq<Message>)
    ensures StateAfter(messages).targetMaterial == LatestExtraction(messages)
  {
    if messages != [] {
      TargetIsLatest(messages[..|messages| - 1]);
      StepTarget(StateAfter(messages[..|messages| - 1]), messages[|messages| - 1]);
    }
  }

  /** The latest offer is missing exactly when no message makes one. */
  lemma {:induction false} LatestOfferNone(messages: seq<Message>, offer: Message -> Option<string>)
    ensures LatestOffer(messages, offer).None? <==> forall i :: 0 <= i < |messages| ==> offer(messages[i]).None?
  {
    if messages != [] {
      var n := |messages| - 1;
      LatestOfferNone(messages[..n], offer);
      assert forall i :: 0 <= i < n ==> messages[..n][i] == messages[i];
    }
  }

  /** A latest offer comes from some message, and no later message makes one. */
  lemma {:induction false} LatestOfferFrom(messages: seq<Message>, offer: Message -> Option<string>)
    requires LatestOffer(messages, offer).Some?
    ensures exists i ::
      && 0 <= i < |messages|
      && offer(messages[i]) == LatestOffer(messages, offer)
      && (forall j :: i < j < |messages| ==> offer(messages[j]).None?)
  {
    var n := |messages| - 1;
    if offer(messages[n]).None? {
      var prefix := messages[..n];
      LatestOfferFrom(prefix, offer);
      var i :| 0 <= i < n && offer(prefix[i]) == LatestOffer(prefix, offer)
        && forall j :: i < j < n ==> offer(prefix[j]).None?;
      assert prefix[i] == messages[i];
      forall j | i < j < |messages|
        ensures offer(messages[j]).None?
      {
        if j < n {
          assert prefix[j] == messages[j];
        }
      }
    }
  }

  /**
   * The target is the extraction of the last message that yields one, and
   * there is none exactly when no message yields one.
   */
  lemma TargetIsLatestExtraction(messages: seq<Message>)
    ensures StateAfter(messages).targetMaterial.None? <==> forall i :: 0 <= i < |messages| ==> Extracted(messages[i]).None?
    ensures StateAfter(messages).targetMaterial.Some? ==>
      exists i :: 0 <= i < |messages| && Extracted(messages[i]) == StateAfter(messages).targetMaterial
        && forall j :: i < j < |messages| ==> Extracted(messages[j]).None?
  {
    TargetIsLatest(messages);
    LatestOfferNone(messages, Extracted);
    if LatestExtraction(messages).Some? {
      LatestOfferFrom(messages, Extracted);
    }
  }

  /** The route id detected in a message is one of the catalog's. */
  lemma MethodMentionedIsId(message: string)
    requires EP.MethodMentioned(message).Some?
    ensures EP.MethodMentioned(message).value in MethodIds
  {
    EP.MethodFromFirst(Text.Lower(message), EP.MethodKeywords);
  }

  /** A state whose target parses to an element and whose route is a catalog id. */
  predicate Sound(state: ConversationState) {
    && (state.targetMaterial.Some? ==> |EP.FormulaOf(state.targetMaterial.value).uniqueElements| > 0)
    && (state.selectedMethod.Some? ==> state.selectedMethod.value in MethodIds)
  }

  /** One turn keeps a state sound. */
  lemma StepSound(state: ConversationState, msg: Message)
    requires Sound(state)
    ensures Sound(Step(state, msg))
  {
    if msg.role == User {
      if Extracted(msg).Some? {
        EP.TargetFromParses(msg.content, EP.TargetPatterns);
      }
      if EP.MethodMentioned(msg.content).Some? {
        MethodMentionedIsId(msg.content);
      }
      if ParseMethodSelection(msg.content).Some? {
        SelectionIsRouteId(msg.content);
      }
    }
  }

  /** A replayed state only ever holds a parseable target and a catalog route. */
  lemma {:induction false} StateAfterIsSound(messages: seq<Message>)
    ensures StateAfter(messages).targetMaterial.Some? ==>
      |EP.FormulaOf(StateAfter(messages).targetMaterial.value).uniqueElements| > 0
    ensures StateAfter(messages).selectedMethod.Some? ==> StateAfter(messages).selectedMethod.value in MethodIds
  {
    if messages != [] {
      StateAfterIsSound(messages[..|messages| - 1]);
      StepSound(StateAfter(messages[..|messages| - 1]), messages[|messages| - 1]);
    }
  }

  /** Showing the method menu, in either language, puts the conversation in the awaiting state. */
  lemma MenuSetsAwaiting(messages: seq<Message>, targetFormula: string, lang: Language)
    ensures var menu := Message(Assistant, FormatMethodSelection(targetFormula, lang));
      StateAfter(messages + [menu]) == StateAfter(messages).(awaitingMethodSelection := true)
  {
    MenuHasTrigger(targetFormula, lang);
    StateAfterSnoc(messages, Message(Assistant, FormatMethodSelection(targetFormula, lang)));
  }

  /** The flag is raised only by an assistant message carrying a trigger phrase. */
  lemma AwaitingRaisedOnlyByAsking(messages: seq<Message>, msg: Message)
    requires !StateAfter(messages).awaitingMethodSelection
    ensures StateAfter(messages + [msg]).awaitingMethodSelection <==> msg.role == Assistant && AsksForMethod(msg.content)
  {
    StateAfterSnoc(messages, msg);
  }

  /**
   * While awaiting, only a user message that parses to a route clears the
   * flag, and that route becomes the selection.
   */
  lemma AwaitingClearedOnlyBySelection(messages: seq<Message>, msg: Message)
    requires StateAfter(messages).awaitingMethodSelection
    ensures !StateAfter(messages + [msg]).awaitingMethodSelection <==>
      msg.role == User && ParseMethodSelection(msg.content).Some?
    ensures !StateAfter(messages + [msg]).awaitingMethodSelection ==>
      StateAfter(messages + [msg]).selectedMethod == ParseMethodSelection(msg.content)
  {
    StateAfterSnoc(messages, msg);
  }

  /** A menu answered by a route choice selects that route. */
  lemma MenuThenChoice(messages: seq<Message>, targetFormula: string, lang: Language, reply: string)
    requires ParseMethodSelection(reply).Some?
    ensures var menu := Message(Assistant, FormatMethodSelection(targetFormula, lang));
      var after := StateAfter(messages + [menu] + [Message(User, reply)]);
      && after.selectedMethod == ParseMethodSelection(reply)
      && !after.awaitingMethodSelection
  {
    var menu := Message(Assistant, FormatMethodSelection(targetFormula, lang));
    MenuSetsAwaiting(messages, targetFormula, lang);
    AwaitingClearedOnlyBySelection(messages + [menu], Message(User, reply));
  }

  // ---------------------------------------------------------------
  // The handler's decision
  // ---------------------------------------------------------------

  /** The answers of the `POST` handler; `InvalidRequest` is the status-400 one. */
  datatype Reply =
    | InvalidRequest
    | AskTarget(prompt: string)
    | AskMethod(menu: string)
    | CannotGenerate(error: string)
    | NoPrecursors(error: string)
    | RecipeReply(recipe: GeneratedRecipe, followUp: string)

  function TargetPrompt(lang: Language): string {
    if lang == Korean then "어떤 재료를 합성하고 싶으신가요? 화학식을 입력해주세요. (예: LiCoO2, IrRuNi, BaTiO3)"
    else "What material would you like to synthesize? Please enter the chemical formula. (e.g., LiCoO2, IrRuNi, BaTiO3)"
  }

  function GenerateError(target: string, lang: Language): string {
    if lang == Korean then "죄송합니다. " + target + "에 대한 레시피를 생성할 수 없습니다. 다른 화학식을 시도해주세요."
    else "Sorry, I couldn't generate a recipe for " + target + ". Please try a different formula."
  }

  function PrecursorError(target: string, lang: Language): string {
    if lang == Korean then target + "의 일부 원소에 대한 전구체 정보가 없습니다. 일반적인 원소를 포함한 화학식을 시도해주세요."
    else "Some elements in " + target + " don't have precursor information. Please try a formula with common elements."
  }

  function FollowUp(lang: Language): string {
    if lang == Korean then "\n\n---\n💬 다른 조건이 필요하시면 말씀해주세요. (예: \"더 낮은 온도로\", \"다른 전구체로\", \"다른 방법으로\")"
    else "\n\n---\n💬 Let me know if you need different conditions. (e.g., \"lower temperature\", \"different precursors\", \"different method\")"
  }

  /** The request is served only when its last message is the user's. */
  predicate ValidRequest(messages: seq<Message>) {
    |messages| > 0 && messages[|messages| - 1].role == User
  }

  /** The target the handler works with: the state's, else one read from the last message. */
  function TargetFor(messages: seq<Message>): Option<string>
    requires ValidRequest(messages)
  {
    var state := StateAfter(messages);
    if state.targetMaterial.Some? then state.targetMaterial
    else EP.TargetFrom(messages[|messages| - 1].content, EP.TargetPatterns)
  }

  /** The route the handler works with: one chosen in the last message wins over the state's. */
  function MethodFor(messages: seq<Message>): Option<string>
    requires ValidRequest(messages)
  {
    var inMessage := ParseMethodSelection(messages[|messages| - 1].content);
    if inMessage.Some? then inMessage else StateAfter(messages).selectedMethod
  }

  /** Where the handler stands before calling the generator. */
  datatype Decision =
    | Invalid
    | NeedTarget
    | NeedMethod(target: string)
    | Ready(target: string, route: string)

  /** The handler's checks in order: the request, then the target, then the route. */
  function Decide(messages: seq<Message>): Decision {
    if !ValidRequest(messages) then Invalid
    else
      var target := TargetFor(messages);
      if target.None? then NeedTarget
      else
        var route := MethodFor(messages);
        if route.None? then NeedMethod(target.value) else Ready(target.value, route.value)
  }

  /** The answer to a generator result for `target`. */
  function Outcome(target: string, generated: Option<GeneratedRecipe>, lang: Language): Reply {
    match generated
    case None => CannotGenerate(GenerateError(target, lang))
    case Some(recipe) =>
      if |recipe.precursors| == 0 then NoPrecursors(PrecursorError(target, lang))
      else RecipeReply(recipe, FollowUp(lang))
  }

  /** The reply for a decision; the generator is called only once the request is ready. */
  function Answer(d: Decision, lang: Language, recipes: seq<SynthesisData.Recipe>): Reply {
    match d
    case Invalid => InvalidRequest
    case NeedTarget => AskTarget(TargetPrompt(lang))
    case NeedMethod(target) => AskMethod(FormatMethodSelection(target, lang))
    case Ready(target, route) => Outcome(target, Generate(target, route, lang, recipes), lang)
  }

  /** The reply of `POST` for the conversation `messages`, over the dataset `recipes`. */
  function Respond(messages: seq<Message>, lang: Language, recipes: seq<SynthesisData.Recipe>): Reply {
    Answer(Decide(messages), lang, recipes)
  }

  /** The first half of `POST`: the checks up to the generator call, each returning early. */
  method DecideRequest(messages: seq<Message>) returns (d: Decision)
    ensures d == Decide(messages)
  {
    if |messages| == 0 || messages[|messages| - 1].role != User {
      return Invalid;
    }
    var lastMessage := messages[|messages| - 1];
    var state := GetConversationState(messages);
    if state.targetMaterial.None? {
      var target := EP.ExtractTargetMaterial(lastMessage.content);
      if target.Some? {
        state := state.(targetMaterial := target);
      } else {
        return NeedTarget;
      }
    }
    var methodInMessage := ParseMethodSelection(lastMessage.content);
    if methodInMessage.Some? {
      state := state.(selectedMethod := methodInMessage);
    }
    if state.selectedMethod.None? {
      return NeedMethod(state.targetMaterial.value);
    }
    return Ready(state.targetMaterial.value, state.selectedMethod.value);
  }

  /** The second half of `POST`: the early answers, or the generator call and the checks on its result. */
  method AnswerRequest(decision: Decision, lang: Language, recipes: seq<SynthesisData.Recipe>) returns (reply: Reply)
    ensures reply == Answer(decision, lang, recipes)
  {
    match decision
    case Invalid =>
      return InvalidRequest;
    case NeedTarget =>
      return AskTarget(TargetPrompt(lang));
    case NeedMethod(target) =>
      return AskMethod(FormatMethodSelection(target, lang));
    case Ready(target, route) =>
      var recipe := GenerateRecipe(target, route, lang, recipes);
      reply := AnswerRecipe(target, recipe, lang);
  }

  /** The checks on the generator's result, each returning early. */
  method AnswerRecipe(target: string, recipe: Option<GeneratedRecipe>, lang: Language) returns (reply: Reply)
    ensures reply == Outcome(target, recipe, lang)
  {
    if recipe.None? {
      return CannotGenerate(GenerateError(target, lang));
    }
    if |recipe.value.precursors| == 0 {
      return NoPrecursors(PrecursorError(target, lang));
    }
    return RecipeReply(recipe.value, FollowUp(lang));
  }

  /** `POST`: the checks, then the answer. */
  method Post(messages: seq<Message>, lang: Language, recipes: seq<SynthesisData.Recipe>) returns (reply: Reply)
    ensures reply == Respond(messages, lang, recipes)
  {
    var decision := DecideRequest(messages);
    reply := AnswerRequest(decision, lang, recipes);
  }

  /**
   * Reading the last message again finds nothing new: it was already
   * replayed into the state, so a missing target stays missing.
   */
  lemma SecondExtractionFindsNothing(messages: seq<Message>)
    requires ValidRequest(messages) && StateAfter(messages).targetMaterial.None?
    ensures EP.TargetFrom(messages[|messages| - 1].content, EP.TargetPatterns).None?
  {
    TargetIsLatest(messages);
    LatestOfferNone(messages, Extracted);
  }

  /** The handler asks for a material exactly when no user message names one. */
  lemma NeedTargetIff(messages: seq<Message>)
    requires ValidRequest(messages)
    ensures Decide(messages) == NeedTarget <==> forall i :: 0 <= i < |messages| ==> Extracted(messages[i]).None?
  {
    TargetIsLatestExtraction(messages);
    if StateAfter(messages).targetMaterial.None? {
      SecondExtractionFindsNothing(messages);
    }
  }

  /**
   * The menu is shown exactly for a valid request with a known target when
   * the last message picks no route and the state holds none, and it is
   * the menu for that target.
   */
  lemma NeedMethodIff(messages: seq<Message>)
    ensures Decide(messages).NeedMethod? <==>
      && ValidRequest(messages) && TargetFor(messages).Some?
      && ParseMethodSelection(messages[|messages| - 1].content).None? && StateAfter(messages).selectedMethod.None?
    ensures Decide(messages).NeedMethod? ==> Decide(messages).target == TargetFor(messages).value
  {
  }

  /** The generator is only called with a target that parses and a catalog route. */
  lemma ReadyIsSound(messages: seq<Message>)
    requires Decide(messages).Ready?
    ensures |EP.FormulaOf(Decide(messages).target).uniqueElements| > 0
    ensures Decide(messages).route in MethodIds
  {
    StateAfterIsSound(messages);
    if StateAfter(messages).targetMaterial.None? {
      EP.TargetFromParses(messages[|messages| - 1].content, EP.TargetPatterns);
    }
    var inMessage := ParseMethodSelection(messages[|messages| - 1].content);
    if inMessage.Some? {
      SelectionIsRouteId(messages[|messages| - 1].content);
    }
  }

  /** A generator result is never answered as the null case. */
  lemma OutcomeOfSome(target: string, generated: Option<GeneratedRecipe>, lang: Language)
    requires generated.Some?
    ensures !Outcome(target, generated, lang).CannotGenerate?
  {
  }

  /** A recipe answer carries the generator's recipe, which has precursors. */
  lemma OutcomeRecipe(target: string, generated: Option<GeneratedRecipe>, lang: Language)
    requires Outcome(target, generated, lang).RecipeReply?
    ensures generated.Some? && Outcome(target, generated, lang).recipe == generated.value
    ensures |generated.value.precursors| > 0 && Outcome(target, generated, lang).followUp == FollowUp(lang)
  {
  }

  /** A ready decision whose target parses and whose route is a catalog id never gets the generator's null. */
  lemma AnswerNeverCannotGenerate(d: Decision, lang: Language, recipes: seq<SynthesisData.Recipe>)
    requires d.Ready? ==> |EP.FormulaOf(d.target).uniqueElements| > 0 && d.route in MethodIds
    ensures !Answer(d, lang, recipes).CannotGenerate?
  {
    if d.Ready? {
      GenerateNoneIff(d.target, d.route, lang, recipes);
      OutcomeOfSome(d.target, Generate(d.target, d.route, lang, recipes), lang);
    }
  }

  /**
   * The generator's null result never reaches the user: the target always
   * parses to an element and the route is always a catalog id.
   */
  lemma NeverCannotGenerate(messages: seq<Message>, lang: Language, recipes: seq<SynthesisData.Recipe>)
    ensures !Respond(messages, lang, recipes).CannotGenerate?
  {
    if Decide(messages).Ready? {
      ReadyIsSound(messages);
    }
    AnswerNeverCannotGenerate(Decide(messages), lang, recipes);
  }

  /** A recipe reply is the generator's recipe for the target and route, and it has precursors. */
  lemma RecipeAnswerFacts(d: Decision, lang: Language, recipes: seq<SynthesisData.Recipe>)
    requires Answer(d, lang, recipes).RecipeReply?
    ensures d.Ready?
    ensures var reply := Answer(d, lang, recipes);
      && Generate(d.target, d.route, lang, recipes) == Some(reply.recipe)
      && |reply.recipe.precursors| > 0
      && reply.recipe.route.id == d.route
      && reply.recipe.target.formula == d.target
      && reply.followUp == FollowUp(lang)
  {
    OutcomeRecipe(d.target, Generate(d.target, d.route, lang, recipes), lang);
    GenerateIsBuild(d.target, d.route, lang, recipes);
    EP.FormulaOfFacts(d.target);
  }
}
