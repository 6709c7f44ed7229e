/** The system prompts of lib/ai/prompts.ts: the prompt chosen for a chat
    model and the prompt for revising a text document. */
module Prompts {
  import opened Common

  /** `blocksPrompt`, character for character. */
  const BlocksPrompt: string :=
    "\n"
    + "You are a dating coach AI assistant that helps users craft personalized messages for dating apps. Your goal is to help create genuine, respectful, and engaging messages that can lead to meaningful conversations.\n"
    + "\n"
    + "Guidelines for message creation:\n"
    + "- Always maintain a respectful and appropriate tone\n"
    + "- Avoid generic pick-up lines\n"
    + "- Focus on creating personalized messages based on profile information\n"
    + "- Never suggest inappropriate or offensive content\n"
    + "- Aim to start genuine conversations\n"
    + "- Consider cultural sensitivity and context\n"
    + "\n"
    + "When using blocks:\n"
    + "1. USE createDocument for:\n"
    + "   - Longer conversation starters\n"
    + "   - Multiple message variations\n"
    + "   - Follow-up message suggestions\n"
    + "   - Conversation strategies\n"
    + "\n"
    + "2. DO NOT use createDocument for:\n"
    + "   - Basic greetings\n"
    + "   - Single-line responses\n"
    + "   - Quick suggestions\n"
    + "   - General advice\n"
    + "\n"
    + "Remember: Wait for user feedback before updating suggestions."

  /** `regularPrompt`, character for character. */
  const RegularPrompt: string :=
    "You are a dating coach assistant specialized in helping users create engaging first messages on dating apps. Your suggestions should be:\n"
    + "- Respectful and appropriate\n"
    + "- Personalized based on profile information\n"
    + "- Genuine and conversation-focused\n"
    + "- Free from inappropriate content\n"
    + "- Culturally sensitive\n"
    + "- Engaging but not overwhelming\n"
    + "\n"
    + "Focus on helping users make authentic connections rather than using generic pick-up lines."

  /** The opening of every document-update prompt. */
  const UpdateBase: string :=
    "Update the following message while maintaining authenticity, respect, and the profile context.\n\n"

  /** The model that is given no block instructions. */
  const ReasoningModel := "chat-model-reasoning"

  /** `systemPrompt`: the regular prompt alone for the reasoning model, and
      followed by a blank line and the block instructions for every other
      model. */
  function SystemPrompt(selectedChatModel: string): (r: string)
    ensures StartsWith(r, RegularPrompt)
    ensures selectedChatModel == ReasoningModel ==> r == RegularPrompt
    ensures selectedChatModel != ReasoningModel ==> r[|RegularPrompt|..] == "\n\n" + BlocksPrompt
  {
    if selectedChatModel == ReasoningModel then
      PrefixOfItself(RegularPrompt);
      RegularPrompt
    else
      PrefixOfConcat(RegularPrompt, "\n\n" + BlocksPrompt);
      RegularPrompt + ("\n\n" + BlocksPrompt)
  }

  lemma PrefixOfItself(a: string)
    ensures StartsWith(a, a)
  {
    assert a[..|a|] == a;
  }

  lemma PrefixOfConcat(a: string, b: string)
    ensures StartsWith(a + b, a) && (a + b)[|a|..] == b
  {
    assert (a + b)[..|a|] == a;
  }

  /** A model gets the block instructions exactly when it is not the
      reasoning model. */
  lemma BlocksOnlyForNonReasoning(selectedChatModel: string)
    ensures SystemPrompt(selectedChatModel) == RegularPrompt <==> selectedChatModel == ReasoningModel
  {
    if selectedChatModel != ReasoningModel {
      assert |SystemPrompt(selectedChatModel)| > |RegularPrompt|;
    }
  }

  /** How a template literal renders the current content: `null` as the
      text "null". */
  function Render(content: Option<string>): string {
    match content
    case None => "null"
    case Some(s) => s
  }

  /** The text before the content in a text-document prompt. */
  const UpdateHead: string := UpdateBase + "Original message:\n"

  /** The text after the content. */
  const UpdateTail: string := "\nRefine the message to be more engaging while keeping it personal and genuine."

  /** `updateDocumentPrompt`: for a text document, the base prompt, then the
      current content verbatim between two fixed texts; for every other
      kind, the empty string. */
  function UpdateDocumentPrompt(currentContent: Option<string>, kind: string): (r: string)
    ensures kind != "text" <==> r == ""
    ensures kind == "text" ==> StartsWith(r, UpdateBase)
    ensures kind == "text" ==>
      && |r| == |UpdateHead| + |Render(currentContent)| + |UpdateTail|
      && r[|UpdateHead|..|r| - |UpdateTail|] == Render(currentContent)
    // the "Original message:" label before the content, the instruction after it
    ensures kind == "text" ==> r[..|UpdateHead|] == UpdateHead && r[|r| - |UpdateTail|..] == UpdateTail
  {
    if kind == "text" then
      var r := UpdateHead + Render(currentContent) + UpdateTail;
      assert r[..|UpdateBase|] == UpdateBase;
      assert r[|UpdateHead|..|r| - |UpdateTail|] == Render(currentContent);
      assert r[..|UpdateHead|] == UpdateHead;
      assert r[|r| - |UpdateTail|..] == UpdateTail;
      r
    else ""
  }

  /** Different contents give different text prompts, so the prompt always
      tells which content it was built from. */
  lemma UpdatePromptInjective(a: Option<string>, b: Option<string>)
    requires Render(a) != Render(b)
    ensures UpdateDocumentPrompt(a, "text") != UpdateDocumentPrompt(b, "text")
  {
  }
}
