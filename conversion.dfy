/** `DocumentProcessor` prompts and `process_large_content`
    (src/claude_clis/shared/ai_client.py). The language model is an opaque
    completion function from (prompt, system prompt) to a reply or an error
    message; the provider and extra keyword arguments are fixed inside it. */
module Conversion {
  import opened Base
  import opened Text
  import opened Chunking

  type Completer = (string, string) -> Result<string, string>

  const PreserveLine := "Preserve original formatting and styling as much as possible"
  const FocusLine := "Focus on clean, readable structure"

  /** The prompt text up to the line the formatting flag selects. */
  const PromptIntro :=
    "Convert the following document content to clean, well-structured Markdown format.\n\n"
    + "Requirements:\n"
    + "- Maintain document structure and hierarchy\n"
    + "- Use appropriate Markdown syntax for headers, lists, tables, etc.\n"
    + "- "

  /** The prompt text from the line after the style up to the content. */
  const PromptMiddle :=
    "\n- Remove any unnecessary whitespace or formatting artifacts\n"
    + "- Ensure proper code block formatting if code is present\n\n"
    + "Document content:\n"

  function FlagLine(preserve: bool): string
  {
    if preserve then PreserveLine else FocusLine
  }

  /** The prompt text before the document content. */
  function PromptHead(style: string, preserve: bool): string
  {
    PromptIntro + FlagLine(preserve) + "\n- Style: " + style + PromptMiddle
  }

  const PromptTail := "\n\nPlease provide only the converted Markdown content without any additional explanation."

  /** `_create_conversion_prompt`: the fixed template around style and content. */
  function ConversionPrompt(content: string, style: string, preserve: bool): string
  {
    PromptHead(style, preserve) + content + PromptTail
  }

  /** The prompt is the intro, the requirement line the flag selects, the
      style, the middle text, the content verbatim and the closing text, in
      that order. */
  lemma PromptLayout(content: string, style: string, preserve: bool)
    ensures var p := ConversionPrompt(content, style, preserve);
      var a := |PromptIntro|;
      var b := a + |FlagLine(preserve)| + |"\n- Style: "|;
      var h := |PromptHead(style, preserve)|;
      && h == b + |style| + |PromptMiddle|
      && |p| == h + |content| + |PromptTail|
      && p[..a] == PromptIntro
      && p[a..a + |FlagLine(preserve)|] == FlagLine(preserve)
      && p[b..b + |style|] == style
      && p[h..h + |content|] == content
      && p[h + |content|..] == PromptTail
  {
    PiecesAt(PromptIntro, FlagLine(preserve), "\n- Style: ", style, PromptMiddle, content, PromptTail);
  }

  /** Where each piece of a seven-piece concatenation sits. */
  lemma PiecesAt(i: string, f: string, s: string, style: string, m: string, content: string, t: string)
    ensures var p := i + f + s + style + m + content + t;
      var a := |i|;
      var b := a + |f| + |s|;
      var h := b + |style| + |m|;
      && |p| == h + |content| + |t|
      && p[..a] == i
      && p[a..a + |f|] == f
      && p[b..b + |style|] == style
      && p[h..h + |content|] == content
      && p[h + |content|..] == t
  {
  }

  /** For a fixed style and flag, different contents give different prompts. */
  lemma PromptDeterminesContent(c1: string, c2: string, style: string, preserve: bool)
    requires ConversionPrompt(c1, style, preserve) == ConversionPrompt(c2, style, preserve)
    ensures c1 == c2
  {
    PromptLayout(c1, style, preserve);
    PromptLayout(c2, style, preserve);
  }

  /** The system prompt of `convert_to_markdown`. */
  const SystemPrompt :=
    "You are an expert document converter specialized in converting various document formats to clean, well-structured Markdown. \n"
    + "        \n"
    + "        Focus on:\n"
    + "        - Accurate content preservation\n"
    + "        - Proper Markdown syntax\n"
    + "        - Clean, readable output\n"
    + "        - Maintaining document structure and hierarchy\n"
    + "        "

  /** The system prompt sent with every part of a multi-part document. */
  const PartSystemPrompt :=
    "You are converting part of a larger document to Markdown. Maintain consistency with document structure."

  const PartSeparator := "\n\n---\n\n"

  /** The prompt for part `i` (0-based) of `n`. */
  function PartPrompt(chunk: string, i: nat, n: nat, style: string, preserve: bool): string
  {
    ConversionPrompt(chunk, style, preserve)
    + "\n\nNote: This is part " + NatToString(i + 1) + " of " + NatToString(n) + " of a larger document."
  }

  /** The prompts for all parts of an `n`-part document, in order. */
  function PartPrompts(chunks: seq<string>, style: string, preserve: bool): (r: seq<string>)
    ensures |r| == |chunks|
    ensures forall i :: 0 <= i < |chunks| ==> r[i] == PartPrompt(chunks[i], i, |chunks|, style, preserve)
  {
    seq(|chunks|, i requires 0 <= i < |chunks| => PartPrompt(chunks[i], i, |chunks|, style, preserve))
  }

  /** Replies to `prompts[k..]`, asked one after another with the same system
      prompt; the first failure ends the run. */
  function Replies(prompts: seq<string>, k: nat, system: string, complete: Completer)
    : (r: Result<seq<string>, string>)
    requires k <= |prompts|
    ensures r.Success? ==> |r.value| == |prompts| - k
    decreases |prompts| - k
  {
    if k == |prompts| then Success([])
    else
      match complete(prompts[k], system)
      case Failure(e) => Failure(e)
      case Success(reply) =>
        match Replies(prompts, k + 1, system, complete)
        case Failure(e) => Failure(e)
        case Success(rest) => Success([reply] + rest)
  }

  /** The (prompt, system prompt) pairs sent for `prompts[k..]`, up to and
      including the first one that fails. */
  function Calls(prompts: seq<string>, k: nat, system: string, complete: Completer)
    : (r: seq<(string, string)>)
    requires k <= |prompts|
    ensures |r| <= |prompts| - k
    decreases |prompts| - k
  {
    if k == |prompts| then []
    else if complete(prompts[k], system).Failure? then [(prompts[k], system)]
    else [(prompts[k], system)] + Calls(prompts, k + 1, system, complete)
  }

  /** When every part succeeds, each prompt is sent once, in order, and reply
      `j` is the answer to prompt `k + j`. */
  lemma {:induction false} RepliesInOrder(prompts: seq<string>, k: nat, system: string, complete: Completer)
    requires k <= |prompts|
    requires Replies(prompts, k, system, complete).Success?
    ensures var replies := Replies(prompts, k, system, complete).value;
      var calls := Calls(prompts, k, system, complete);
      && |calls| == |prompts| - k
      && forall j :: 0 <= j < |replies| ==>
           calls[j] == (prompts[k + j], system) && complete(prompts[k + j], system) == Success(replies[j])
    decreases |prompts| - k
  {
    if k < |prompts| {
      RepliesInOrder(prompts, k + 1, system, complete);
      var replies := Replies(prompts, k, system, complete).value;
      var rest := Replies(prompts, k + 1, system, complete).value;
      var calls := Calls(prompts, k, system, complete);
      assert replies == [replies[0]] + rest;
      assert calls == [(prompts[k], system)] + Calls(prompts, k + 1, system, complete);
      forall j | 0 <= j < |replies|
        ensures calls[j] == (prompts[k + j], system) && complete(prompts[k + j], system) == Success(replies[j])
      {
        if j > 0 {
          assert calls[j] == Calls(prompts, k + 1, system, complete)[j - 1];
          assert replies[j] == rest[j - 1];
        }
      }
    }
  }

  /** A run that fails reports the error of its last call, the only one that
      failed. */
  lemma {:induction false} RepliesFailure(prompts: seq<string>, k: nat, system: string, complete: Completer)
    requires k <= |prompts|
    requires Replies(prompts, k, system, complete).Failure?
    ensures var calls := Calls(prompts, k, system, complete);
      && calls != []
      && complete(calls[|calls| - 1].0, calls[|calls| - 1].1) == Failure(Replies(prompts, k, system, complete).error)
      && forall j :: 0 <= j < |calls| - 1 ==> complete(calls[j].0, calls[j].1).Success?
    decreases |prompts| - k
  {
    if complete(prompts[k], system).Success? {
      RepliesFailure(prompts, k + 1, system, complete);
      var calls := Calls(prompts, k, system, complete);
      var rest := Calls(prompts, k + 1, system, complete);
      assert calls == [(prompts[k], system)] + rest;
      forall j | 0 <= j < |calls| - 1 ensures complete(calls[j].0, calls[j].1).Success? {
        if j > 0 { assert calls[j] == rest[j - 1]; }
      }
    }
  }

  /** The value of `process_large_content`. */
  function ProcessLarge(content: string, size: int, style: string, preserve: bool, complete: Completer)
    : Result<string, string>
    requires size >= 1 || |content| <= size
  {
    var chunks := Chunks(content, size);
    if |chunks| == 1 then complete(ConversionPrompt(content, style, preserve), SystemPrompt)
    else
      match Replies(PartPrompts(chunks, style, preserve), 0, PartSystemPrompt, complete)
      case Failure(e) => Failure(e)
      case Success(replies) => Success(Join(replies, PartSeparator))
  }

  /** The calls `process_large_content` makes, in order. */
  function ProcessLargeCalls(content: string, size: int, style: string, preserve: bool, complete: Completer)
    : seq<(string, string)>
    requires size >= 1 || |content| <= size
  {
    var chunks := Chunks(content, size);
    if |chunks| == 1 then [(ConversionPrompt(content, style, preserve), SystemPrompt)]
    else Calls(PartPrompts(chunks, style, preserve), 0, PartSystemPrompt, complete)
  }

  /** No chunk (a long all-whitespace text): the result is empty and nothing
      is sent. */
  lemma NoChunksNoCall(content: string, size: int, style: string, preserve: bool, complete: Completer)
    requires size >= 1 || |content| <= size
    requires Chunks(content, size) == []
    ensures ProcessLarge(content, size, style, preserve, complete) == Success("")
    ensures ProcessLargeCalls(content, size, style, preserve, complete) == []
  {
  }

  /** A short text is sent whole, with the converter's system prompt. */
  lemma ShortTextOneCall(content: string, size: int, style: string, preserve: bool, complete: Completer)
    requires |content| <= size
    ensures ProcessLarge(content, size, style, preserve, complete)
      == complete(ConversionPrompt(content, style, preserve), SystemPrompt)
    ensures ProcessLargeCalls(content, size, style, preserve, complete)
      == [(ConversionPrompt(content, style, preserve), SystemPrompt)]
  {
    ChunksOfShortText(content, size);
  }

  /** The answers to `prompts[k..]` when none fails. */
  function Answers(prompts: seq<string>, k: nat, system: string, complete: Completer): (r: seq<string>)
    requires k <= |prompts|
    requires forall i :: k <= i < |prompts| ==> complete(prompts[i], system).Success?
    ensures |r| == |prompts| - k
    ensures forall j :: 0 <= j < |r| ==> complete(prompts[k + j], system) == Success(r[j])
  {
    seq(|prompts| - k, j requires 0 <= j < |prompts| - k => complete(prompts[k + j], system).value)
  }

  /** Replies succeed when every call does, and are then the answers in
      prompt order. */
  lemma {:induction false} AllSucceed(prompts: seq<string>, k: nat, system: string, complete: Completer)
    requires k <= |prompts|
    requires forall i :: k <= i < |prompts| ==> complete(prompts[i], system).Success?
    ensures Replies(prompts, k, system, complete) == Success(Answers(prompts, k, system, complete))
    decreases |prompts| - k
  {
    if k < |prompts| {
      AllSucceed(prompts, k + 1, system, complete);
      var rest := Answers(prompts, k + 1, system, complete);
      var all := Answers(prompts, k, system, complete);
      assert Replies(prompts, k, system, complete) == Success([complete(prompts[k], system).value] + rest);
      assert forall j :: 0 <= j < |rest| ==> all[j + 1] == rest[j];
      assert all == [complete(prompts[k], system).value] + rest;
    }
  }

  /** A document of several chunks is sent part by part, each part once and in
      order; when every part succeeds the replies, in chunk order, are joined
      with the separator. */
  lemma ManyChunksJoined(content: string, size: int, style: string, preserve: bool, complete: Completer)
    requires size >= 1 && |Chunks(content, size)| >= 2
    requires var prompts := PartPrompts(Chunks(content, size), style, preserve);
      forall i :: 0 <= i < |prompts| ==> complete(prompts[i], PartSystemPrompt).Success?
    ensures var prompts := PartPrompts(Chunks(content, size), style, preserve);
      && ProcessLarge(content, size, style, preserve, complete)
         == Success(Join(Answers(prompts, 0, PartSystemPrompt, complete), PartSeparator))
      && |ProcessLargeCalls(content, size, style, preserve, complete)| == |prompts|
      && forall j :: 0 <= j < |prompts| ==>
           ProcessLargeCalls(content, size, style, preserve, complete)[j] == (prompts[j], PartSystemPrompt)
  {
    var prompts := PartPrompts(Chunks(content, size), style, preserve);
    var answers := Answers(prompts, 0, PartSystemPrompt, complete);
    assert Replies(prompts, 0, PartSystemPrompt, complete) == Success(answers) by {
      AllSucceed(prompts, 0, PartSystemPrompt, complete);
    }
    var calls := Calls(prompts, 0, PartSystemPrompt, complete);
    assert ProcessLarge(content, size, style, preserve, complete) == Success(Join(answers, PartSeparator));
    assert ProcessLargeCalls(content, size, style, preserve, complete) == calls;
    assert |calls| == |prompts| && forall j :: 0 <= j < |prompts| ==> calls[j] == (prompts[j], PartSystemPrompt) by {
      RepliesInOrder(prompts, 0, PartSystemPrompt, complete);
    }
  }

  /** `process_large_content`: chunk, then either one conversion of the whole
      text or one request per part. */
  method ProcessLargeContent(content: string, size: int, style: string, preserve: bool, complete: Completer)
    returns (r: Result<string, string>, ghost calls: seq<(string, string)>)
    requires size >= 1 || |content| <= size
    ensures r == ProcessLarge(content, size, style, preserve, complete)
    ensures calls == ProcessLargeCalls(content, size, style, preserve, complete)
  {
    var chunks := ChunkContent(content, size);
    if |chunks| == 1 {
      r := complete(ConversionPrompt(content, style, preserve), SystemPrompt);
      calls := [(ConversionPrompt(content, style, preserve), SystemPrompt)];
      return;
    }
    var prompts := PartPrompts(chunks, style, preserve);
    var replies;
    replies, calls := AskInOrder(prompts, PartSystemPrompt, complete);
    match replies {
      case Failure(e) => r := Failure(e);
      case Success(processed) => r := Success(Join(processed, PartSeparator));
    }
  }

  /** The loop of `process_large_content` that sends the part prompts one
      after another and collects the replies in `processed_chunks`. */
  method AskInOrder(prompts: seq<string>, system: string, complete: Completer)
    returns (r: Result<seq<string>, string>, ghost calls: seq<(string, string)>)
    ensures r == Replies(prompts, 0, system, complete)
    ensures calls == Calls(prompts, 0, system, complete)
  {
    var processed: seq<string> := [];
    calls := [];
    var i := 0;
    PrependNothing(Replies(prompts, 0, system, complete));
    assert calls + Calls(prompts, 0, system, complete) == Calls(prompts, 0, system, complete);
    while i < |prompts|
      invariant 0 <= i <= |prompts| && |processed| == i
      invariant Replies(prompts, 0, system, complete) == Prepend(processed, Replies(prompts, i, system, complete))
      invariant Calls(prompts, 0, system, complete) == calls + Calls(prompts, i, system, complete)
      decreases |prompts| - i
    {
      var reply := complete(prompts[i], system);
      StepReplies(prompts, i, system, complete, processed, calls);
      calls := calls + [(prompts[i], system)];
      if reply.Failure? {
        return Failure(reply.error), calls;
      }
      processed := processed + [reply.value];
      i := i + 1;
    }
    assert processed + [] == processed;
    r := Success(processed);
  }

  /** Replies already received, in front of the outcome of the rest. */
  function Prepend(done: seq<string>, rest: Result<seq<string>, string>): Result<seq<string>, string>
  {
    match rest
    case Failure(e) => Failure(e)
    case Success(later) => Success(done + later)
  }

  lemma PrependNothing(rest: Result<seq<string>, string>)
    ensures Prepend([], rest) == rest
  {
    if rest.Success? {
      assert [] + rest.value == rest.value;
    }
  }

  /** One loop iteration keeps the invariant of `ProcessLargeContent`. */
  lemma StepReplies(prompts: seq<string>, i: nat, system: string, complete: Completer,
                    processed: seq<string>, calls: seq<(string, string)>)
    requires i < |prompts|
    ensures var reply := complete(prompts[i], system);
      reply.Failure? ==>
        && Prepend(processed, Replies(prompts, i, system, complete)) == Failure(reply.error)
        && calls + Calls(prompts, i, system, complete) == calls + [(prompts[i], system)]
    ensures var reply := complete(prompts[i], system);
      reply.Success? ==>
        && Prepend(processed, Replies(prompts, i, system, complete))
           == Prepend(processed + [reply.value], Replies(prompts, i + 1, system, complete))
        && calls + Calls(prompts, i, system, complete)
           == (calls + [(prompts[i], system)]) + Calls(prompts, i + 1, system, complete)
  {
    var reply := complete(prompts[i], system);
    if reply.Success? {
      if Replies(prompts, i + 1, system, complete).Success? {
        var rest := Replies(prompts, i + 1, system, complete).value;
        assert processed + ([reply.value] + rest) == (processed + [reply.value]) + rest;
      }
    }
  }
}
