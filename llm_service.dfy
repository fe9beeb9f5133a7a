/** The deterministic parts of src/services/llm_service.py: prompt templates
    and chat-message construction (PromptManager), the fenced code-block
    scanner (ResponseParser.extract_code) and the bounded conversation
    window (ContextManager). */
module LlmService {
  import opened Common

  /** A `{"role": ..., "content": ...}` message. */
  datatype ChatMessage = ChatMessage(role: string, content: string)

  // ---------------------------------------------------------------------
  // PromptManager

  /** The four templates written when the template directory does not exist. */
  const DefaultTemplates: map<string, string> := map[
    "code_generation" := "以下の要件に基づいてPythonコードを生成してください:\n\n{requirements}\n\n以下の制約を守ってください:\n{constraints}",
    "code_review" := "以下のコードをレビューし、改善点を指摘してください:\n\n```python\n{code}\n```",
    "task_decomposition" := "以下のタスクを小さなサブタスクに分解してください:\n\n{task}",
    "error_analysis" := "以下のエラーを分析し、解決策を提案してください:\n\n{error}"
  ]

  function MissingTemplateError(name: string): string
  {
    "テンプレート '" + name + "' が見つかりません"
  }

  class PromptManager {
    var templates: map<string, string>

    /** `loaded` is None when the template directory does not exist (the
        defaults are written there and read back), otherwise the templates
        read from its `.txt` files. */
    constructor (loaded: Option<map<string, string>>)
      ensures templates == (if loaded.None? then DefaultTemplates else loaded.value)
    {
      templates := if loaded.None? then DefaultTemplates else loaded.value;
    }

    /** `get_template`: None for an unknown name. */
    function GetTemplate(name: string): (r: Option<string>)
      reads this
      ensures r.None? <==> name !in templates
      ensures r.Some? ==> r.value == templates[name]
    {
      if name in templates then Some(templates[name]) else None
    }

    /** The lookup of `format_prompt`: it raises for an unknown name and for
        an empty template (`if not template`); otherwise the template is what
        `str.format` is applied to. */
    function PromptTemplate(name: string): (r: Result<string>)
      reads this
      ensures r.Err? <==> GetTemplate(name).None? || GetTemplate(name).value == ""
      ensures r.Err? ==> r.msg == MissingTemplateError(name)
      ensures r.Ok? ==> r.value == templates[name] && r.value != ""
    {
      match GetTemplate(name)
      case None => Err(MissingTemplateError(name))
      case Some(t) => if t == "" then Err(MissingTemplateError(name)) else Ok(t)
    }
  }

  /** A fresh manager over a missing directory knows exactly the four default
      templates, each non-empty, so format_prompt finds all four. */
  lemma DefaultTemplatesKnown()
    ensures DefaultTemplates.Keys == {"code_generation", "code_review", "task_decomposition", "error_analysis"}
    ensures forall name :: name in DefaultTemplates ==> DefaultTemplates[name] != ""
  {
  }

  /** `create_chat_messages`: the system message, then the zipped
      (user, assistant) pairs only when both histories are non-empty, then
      the user prompt. Python's None default is the empty list here. */
  method CreateChatMessages(systemPrompt: string, userPrompt: string,
                            assistantMessages: seq<string>, userMessages: seq<string>)
    returns (messages: seq<ChatMessage>)
    ensures var pairs := if userMessages != [] && assistantMessages != []
              then Min(|userMessages|, |assistantMessages|) else 0;
      && |messages| == 2 + 2 * pairs
      && messages[0] == ChatMessage("system", systemPrompt)
      && messages[|messages| - 1] == ChatMessage("user", userPrompt)
      && (forall i :: 0 <= i < pairs ==>
            messages[1 + 2 * i] == ChatMessage("user", userMessages[i])
            && messages[2 + 2 * i] == ChatMessage("assistant", assistantMessages[i]))
  {
    messages := [ChatMessage("system", systemPrompt)];
    if userMessages != [] && assistantMessages != [] {
      var n := Min(|userMessages|, |assistantMessages|);
      var i := 0;
      while i < n
        invariant 0 <= i <= n
        invariant |messages| == 1 + 2 * i
        invariant messages[0] == ChatMessage("system", systemPrompt)
        invariant forall k :: 0 <= k < i ==>
          messages[1 + 2 * k] == ChatMessage("user", userMessages[k])
          && messages[2 + 2 * k] == ChatMessage("assistant", assistantMessages[k])
      {
        messages := messages + [ChatMessage("user", userMessages[i])];
        messages := messages + [ChatMessage("assistant", assistantMessages[i])];
        i := i + 1;
      }
    }
    messages := messages + [ChatMessage("user", userPrompt)];
  }

  function Min(a: int, b: int): int
  {
    if a <= b then a else b
  }

  // ---------------------------------------------------------------------
  // ResponseParser.extract_code: the matches of ```(\w*)\n(.*?)``` (DOTALL)

  datatype CodeBlock = CodeBlock(language: string, code: string)

  /** `\w` restricted to ASCII: letters, digits and '_'. */
  predicate WordChar(c: char)
  {
    ('a' <= c <= 'z') || ('A' <= c <= 'Z') || ('0' <= c <= '9') || c == '_'
  }

  const Fence: string := "```"

  /** Three backticks start at position `i`. */
  predicate FenceStarts(text: string, i: nat)
  {
    i + 3 <= |text| && text[i] == '`' && text[i + 1] == '`' && text[i + 2] == '`'
  }

  /** Where the greedy `\w*` starting at `i` stops. */
  function WordEnd(text: string, i: nat): (j: nat)
    requires i <= |text|
    ensures i <= j <= |text|
    ensures forall k :: i <= k < j ==> WordChar(text[k])
    ensures j == |text| || !WordChar(text[j])
    decreases |text| - i
  {
    if i == |text| || !WordChar(text[i]) then i else WordEnd(text, i + 1)
  }

  /** Where the lazy `.*?` starting at `i` stops: the first closing fence at
      or after `i`. */
  function FenceFrom(text: string, i: nat): (r: Option<nat>)
    requires i <= |text|
    ensures r.Some? ==> (i <= r.value && FenceStarts(text, r.value)
      && forall k :: i <= k < r.value ==> !FenceStarts(text, k))
    ensures r.None? ==> forall k :: i <= k ==> !FenceStarts(text, k)
    decreases |text| - i
  {
    if i + 3 > |text| then None
    else if FenceStarts(text, i) then Some(i)
    else FenceFrom(text, i + 1)
  }

  datatype Match = Match(block: CodeBlock, end: nat)

  /** The match of the pattern starting exactly at `p`, if any. Since `\w`
      never matches the newline, backtracking into `\w*` cannot help, so the
      match is determined by the longest word run. */
  function MatchAt(text: string, p: nat): (r: Option<Match>)
    requires p <= |text|
    ensures r.Some? ==> p + 7 <= r.value.end <= |text|
  {
    if !FenceStarts(text, p) then None
    else
      var w := WordEnd(text, p + 3);
      if w == |text| || text[w] != '\n' then None
      else match FenceFrom(text, w + 1)
        case None => None
        case Some(f) =>
          var language := if w == p + 3 then "text" else text[p + 3..w];
          Some(Match(CodeBlock(language, text[w + 1..f]), f + 3))
  }

  /** `re.finditer` from position `p`: try each position in turn and resume
      after a match. */
  function ExtractFrom(text: string, p: nat): (r: seq<CodeBlock>)
    requires p <= |text|
    ensures 7 * |r| <= |text| - p
    ensures forall k :: 0 <= k < |r| ==> r[k].language != ""
    decreases |text| - p
  {
    if p == |text| then []
    else match MatchAt(text, p)
      case None => ExtractFrom(text, p + 1)
      case Some(m) => [m.block] + ExtractFrom(text, m.end)
  }

  /** `extract_code`: one block per match, in order, language "text" for an
      empty tag. */
  method ExtractCode(text: string) returns (blocks: seq<CodeBlock>)
    ensures blocks == ExtractFrom(text, 0)
  {
    blocks := [];
    var p := 0;
    while p < |text|
      invariant p <= |text|
      invariant ExtractFrom(text, 0) == blocks + ExtractFrom(text, p)
      decreases |text| - p
    {
      var m := ScanAt(text, p);
      match m {
        case None =>
          p := p + 1;
        case Some(found) =>
          assert blocks + ([found.block] + ExtractFrom(text, found.end))
            == (blocks + [found.block]) + ExtractFrom(text, found.end);
          blocks := blocks + [found.block];
          p := found.end;
      }
    }
  }

  /** One attempt of the pattern at `p`: the fence, the word run, the newline
      and the search for the closing fence. */
  method ScanAt(text: string, p: nat) returns (m: Option<Match>)
    requires p <= |text|
    ensures m == MatchAt(text, p)
  {
    if !FenceStarts(text, p) {
      return None;
    }
    var w := ScanWord(text, p + 3);
    if w == |text| || text[w] != '\n' {
      return None;
    }
    var f := ScanFence(text, w + 1);
    if f.None? {
      return None;
    }
    var language := if w == p + 3 then "text" else text[p + 3..w];
    m := Some(Match(CodeBlock(language, text[w + 1..f.value]), f.value + 3));
  }

  /** The greedy `\w*` loop. */
  method ScanWord(text: string, i: nat) returns (w: nat)
    requires i <= |text|
    ensures w == WordEnd(text, i)
  {
    w := i;
    while w < |text| && WordChar(text[w])
      invariant i <= w <= |text|
      invariant WordEnd(text, i) == WordEnd(text, w)
    {
      w := w + 1;
    }
  }

  /** The lazy `.*?` loop up to the closing fence. */
  method ScanFence(text: string, i: nat) returns (f: Option<nat>)
    requires i <= |text|
    ensures f == FenceFrom(text, i)
  {
    var j := i;
    while j + 3 <= |text| && !FenceStarts(text, j)
      invariant i <= j <= |text|
      invariant FenceFrom(text, i) == FenceFrom(text, j)
    {
      j := j + 1;
    }
    f := if j + 3 > |text| then None else Some(j);
  }

  /** A fenced block as a writer lays it out: prose, then the fence with a
      word tag, a newline, the code and the closing fence. */
  datatype FencedBlock = FencedBlock(prose: string, tag: string, code: string)

  /** No three backticks in a row anywhere in `s`. */
  predicate NoFence(s: string)
  {
    forall k: nat :: k <= |s| ==> !FenceStarts(s, k)
  }

  /** What keeps the pattern on the written fences: prose and code hold no
      three backticks in a row (single backticks, inline code and template
      literals are fine), the tag is a word, and the code does not end in a
      backtick, which would otherwise begin the closing fence early. */
  predicate WellFormed(b: FencedBlock)
  {
    && NoFence(b.prose)
    && (forall k :: 0 <= k < |b.tag| ==> WordChar(b.tag[k]))
    && NoFence(b.code)
    && (b.code == [] || b.code[|b.code| - 1] != '`')
  }

  /** The blocks laid out one after the other, followed by `tail`. */
  function Render(bs: seq<FencedBlock>, tail: string): string
  {
    if bs == [] then tail
    else bs[0].prose + (Fence + (bs[0].tag + ("\n" + (bs[0].code + (Fence + Render(bs[1..], tail))))))
  }

  function Label(b: FencedBlock): CodeBlock
  {
    CodeBlock(if b.tag == "" then "text" else b.tag, b.code)
  }

  function Labels(bs: seq<FencedBlock>): seq<CodeBlock>
  {
    if bs == [] then [] else [Label(bs[0])] + Labels(bs[1..])
  }

  lemma SliceParts(text: string, p: nat, a: string, b: string)
    requires p <= |text| && text[p..] == a + b
    ensures p + |a| <= |text| && text[p..p + |a|] == a && text[p + |a|..] == b
  {
    assert text[p..p + |a|] == text[p..][..|a|];
    assert text[p + |a|..] == text[p..][|a|..];
  }

  /** Positions where the pattern does not match contribute nothing:
      finditer moves on to the next one. */
  lemma {:induction false} SkipUnmatched(text: string, p: nat, n: nat)
    requires p + n <= |text|
    requires forall k: nat :: p <= k < p + n ==> MatchAt(text, k).None?
    ensures ExtractFrom(text, p) == ExtractFrom(text, p + n)
    decreases n
  {
    if n > 0 {
      SkipUnmatched(text, p + 1, n - 1);
    }
  }

  lemma {:induction false} WordEndAt(text: string, i: nat, n: nat)
    requires i + n < |text|
    requires forall k :: i <= k < i + n ==> WordChar(text[k])
    requires !WordChar(text[i + n])
    ensures WordEnd(text, i) == i + n
    decreases n
  {
    if n > 0 {
      WordEndAt(text, i + 1, n - 1);
    }
  }

  /** The lazy `.*?` stops at the first fence when none starts before it. */
  lemma {:induction false} FenceFromAt(text: string, i: nat, n: nat)
    requires FenceStarts(text, i + n)
    requires forall k: nat :: i <= k < i + n ==> !FenceStarts(text, k)
    ensures FenceFrom(text, i) == Some(i + n)
    decreases n
  {
    if n > 0 {
      FenceFromAt(text, i + 1, n - 1);
    }
  }

  /** A fenced block with word tag `tag` and body `code` at `q`, stated
      position by position. */
  predicate FencedAt(text: string, q: nat, tag: string, code: string)
  {
    var w := q + 3 + |tag|;
    var f := w + 1 + |code|;
    && f + 3 <= |text|
    && FenceStarts(text, q)
    && text[q + 3..w] == tag
    && text[w] == '\n'
    && text[w + 1..f] == code
    && FenceStarts(text, f)
  }

  /** A slice without three backticks in a row has no fence starting
      inside it. */
  lemma NoFenceIn(text: string, i: nat, j: nat, s: string)
    requires i <= j <= |text| && text[i..j] == s && NoFence(s)
    ensures forall k: nat :: i <= k && k + 3 <= j ==> !FenceStarts(text, k)
  {
    forall k: nat | i <= k && k + 3 <= j ensures !FenceStarts(text, k) {
      if FenceStarts(text, k) {
        assert s[k - i] == text[k] && s[k - i + 1] == text[k + 1] && s[k - i + 2] == text[k + 2];
        assert FenceStarts(s, k - i);
      }
    }
  }

  /** Inside the code of a block no fence starts: none lies wholly in the
      code, and one reaching into the closing fence would need the code to
      end in a backtick. */
  lemma CodeClear(text: string, i: nat, code: string)
    requires i + |code| + 3 <= |text| && text[i..i + |code|] == code
    requires FenceStarts(text, i + |code|)
    requires NoFence(code) && (code == [] || code[|code| - 1] != '`')
    ensures forall k: nat :: i <= k < i + |code| ==> !FenceStarts(text, k)
  {
    var f := i + |code|;
    NoFenceIn(text, i, f, code);
    forall k: nat | i <= k < f && f < k + 3 ensures !FenceStarts(text, k) {
      assert text[f - 1] == code[|code| - 1];
    }
  }

  /** A block laid out at `q` is matched there, and the match ends right
      after its closing fence. */
  lemma MatchAtBlock(text: string, q: nat, tag: string, code: string)
    requires FencedAt(text, q, tag, code)
    requires forall k :: 0 <= k < |tag| ==> WordChar(tag[k])
    requires NoFence(code) && (code == [] || code[|code| - 1] != '`')
    ensures MatchAt(text, q)
      == Some(Match(CodeBlock(if tag == "" then "text" else tag, code), q + 3 + |tag| + 1 + |code| + 3))
  {
    var w := q + 3 + |tag|;
    var f := w + 1 + |code|;
    TagEnds(text, q + 3, tag);
    CodeEnds(text, w + 1, code);
    MatchAtParts(text, q, w, f);
    assert (w == q + 3) == (tag == "");
  }

  /** The word run after the opening fence is exactly the tag. */
  lemma TagEnds(text: string, i: nat, tag: string)
    requires i + |tag| < |text| && text[i..i + |tag|] == tag && text[i + |tag|] == '\n'
    requires forall k :: 0 <= k < |tag| ==> WordChar(tag[k])
    ensures WordEnd(text, i) == i + |tag|
  {
    WordCharsAt(text, i, tag);
    WordEndAt(text, i, |tag|);
  }

  /** The lazy body stops at the fence right after the code. */
  lemma CodeEnds(text: string, i: nat, code: string)
    requires i + |code| + 3 <= |text| && text[i..i + |code|] == code
    requires FenceStarts(text, i + |code|)
    requires NoFence(code) && (code == [] || code[|code| - 1] != '`')
    ensures FenceFrom(text, i) == Some(i + |code|)
  {
    CodeClear(text, i, code);
    FenceFromAt(text, i, |code|);
  }

  /** The match at `q`, from where its word run and its body end. */
  lemma MatchAtParts(text: string, q: nat, w: nat, f: nat)
    requires q + 3 <= w < f && f + 3 <= |text|
    requires FenceStarts(text, q) && WordEnd(text, q + 3) == w && text[w] == '\n'
    requires FenceFrom(text, w + 1) == Some(f)
    ensures MatchAt(text, q)
      == Some(Match(CodeBlock(if w == q + 3 then "text" else text[q + 3..w], text[w + 1..f]), f + 3))
  {
  }

  /** A tag of word characters, read off the text. */
  lemma WordCharsAt(text: string, i: nat, tag: string)
    requires i + |tag| <= |text| && text[i..i + |tag|] == tag
    requires forall k :: 0 <= k < |tag| ==> WordChar(tag[k])
    ensures forall k :: i <= k < i + |tag| ==> WordChar(text[k])
  {
    forall k | i <= k < i + |tag| ensures WordChar(text[k]) {
      assert text[k] == tag[k - i];
    }
  }

  /** The rendered form of a fenced block is one, followed by `after`. */
  lemma RenderedFencedAt(text: string, q: nat, tag: string, code: string, after: string)
    requires q <= |text| && text[q..] == Fence + (tag + ("\n" + (code + (Fence + after))))
    ensures FencedAt(text, q, tag, code)
    ensures q + 3 + |tag| + 1 + |code| + 3 <= |text|
    ensures text[q + 3 + |tag| + 1 + |code| + 3..] == after
  {
    var w := q + 3 + |tag|;
    var f := w + 1 + |code|;
    var afterTag := "\n" + (code + (Fence + after));
    var afterCode := Fence + after;
    FenceSlice(text, q, tag + afterTag);
    SliceParts(text, q + 3, tag, afterTag);
    NewlineSlice(text, w, code + afterCode);
    SliceParts(text, w + 1, code, afterCode);
    FenceSlice(text, f, after);
  }

  /** A fence at the front of a suffix of the text. */
  lemma FenceSlice(text: string, i: nat, rest: string)
    requires i <= |text| && text[i..] == Fence + rest
    ensures FenceStarts(text, i) && text[i + 3..] == rest
  {
    SliceParts(text, i, Fence, rest);
    assert text[i..i + 3] == Fence;
    assert text[i] == Fence[0] && text[i + 1] == Fence[1] && text[i + 2] == Fence[2];
  }

  /** A newline at the front of a suffix of the text. */
  lemma NewlineSlice(text: string, i: nat, rest: string)
    requires i <= |text| && text[i..] == "\n" + rest
    ensures i < |text| && text[i] == '\n' && text[i + 1..] == rest
  {
    SliceParts(text, i, "\n", rest);
    assert text[i] == text[i..i + 1][0];
  }

  lemma ExtractStep(text: string, q: nat, m: Match)
    requires q < |text| && MatchAt(text, q) == Some(m)
    ensures ExtractFrom(text, q) == [m.block] + ExtractFrom(text, m.end)
  {
  }

  /** Where the block laid out at `p` ends. */
  function BlockEnd(p: nat, b: FencedBlock): nat
  {
    p + |b.prose| + 3 + |b.tag| + 1 + |b.code| + 3
  }

  /** Block `b` laid out at `p`: prose in which no fence starts, then the
      fenced part. */
  predicate BlockAt(text: string, p: nat, b: FencedBlock)
  {
    && p + |b.prose| <= |text|
    && (forall k: nat :: p <= k && k + 3 <= p + |b.prose| ==> !FenceStarts(text, k))
    && FencedAt(text, p + |b.prose|, b.tag, b.code)
  }

  /** The blocks `bs` laid out one after the other from `p`, with no fence
      starting after the last one. */
  predicate LaidOut(text: string, p: nat, bs: seq<FencedBlock>)
    decreases |bs|
  {
    if bs == [] then p <= |text| && forall k: nat :: p <= k <= |text| ==> !FenceStarts(text, k)
    else BlockAt(text, p, bs[0]) && LaidOut(text, BlockEnd(p, bs[0]), bs[1..])
  }

  /** A rendered block, read off the text position by position. */
  lemma RenderedBlockAt(text: string, p: nat, b: FencedBlock, after: string)
    requires p <= |text| && text[p..] == b.prose + (Fence + (b.tag + ("\n" + (b.code + (Fence + after)))))
    requires WellFormed(b)
    ensures BlockAt(text, p, b)
    ensures BlockEnd(p, b) <= |text| && text[BlockEnd(p, b)..] == after
  {
    var q := p + |b.prose|;
    SliceParts(text, p, b.prose, Fence + (b.tag + ("\n" + (b.code + (Fence + after)))));
    NoFenceIn(text, p, q, b.prose);
    RenderedFencedAt(text, q, b.tag, b.code, after);
  }

  /** A rendered text is laid out block by block. */
  lemma {:induction false} RenderedLaidOut(text: string, p: nat, bs: seq<FencedBlock>, tail: string)
    requires p <= |text| && text[p..] == Render(bs, tail)
    requires forall i :: 0 <= i < |bs| ==> WellFormed(bs[i])
    requires NoFence(tail)
    ensures LaidOut(text, p, bs)
    decreases |bs|
  {
    if bs == [] {
      assert text[p..|text|] == tail;
      NoFenceIn(text, p, |text|, tail);
    } else {
      assert WellFormed(bs[0]);
      RenderedBlockAt(text, p, bs[0], Render(bs[1..], tail));
      RenderedLaidOut(text, BlockEnd(p, bs[0]), bs[1..], tail);
    }
  }

  /** No match starts in the prose of a laid-out block: a fence wholly in
      the prose is excluded, and one reaching into the opening fence is
      followed by a backtick where the pattern needs a word character or a
      newline. */
  lemma ProseUnmatched(text: string, p: nat, b: FencedBlock)
    requires BlockAt(text, p, b)
    ensures forall k: nat :: p <= k < p + |b.prose| ==> MatchAt(text, k).None?
  {
    var q := p + |b.prose|;
    forall k: nat | p <= k < q ensures MatchAt(text, k).None? {
      if FenceStarts(text, k) {
        assert q < k + 3;
        assert text[k + 3] == '`';
        assert WordEnd(text, k + 3) == k + 3;
      }
    }
  }

  /** Scanning passes over the prose of a laid-out block. */
  lemma ProseSkipped(text: string, p: nat, b: FencedBlock)
    requires BlockAt(text, p, b)
    ensures ExtractFrom(text, p) == ExtractFrom(text, p + |b.prose|)
  {
    ProseUnmatched(text, p, b);
    SkipUnmatched(text, p, |b.prose|);
  }

  /** The fenced part of a block is the first one found where it starts,
      and scanning resumes right after its closing fence. */
  lemma FencedFound(text: string, p: nat, b: FencedBlock)
    requires FencedAt(text, p + |b.prose|, b.tag, b.code)
    requires forall k :: 0 <= k < |b.tag| ==> WordChar(b.tag[k])
    requires NoFence(b.code) && (b.code == [] || b.code[|b.code| - 1] != '`')
    ensures BlockEnd(p, b) <= |text|
    ensures ExtractFrom(text, p + |b.prose|) == [Label(b)] + ExtractFrom(text, BlockEnd(p, b))
  {
    var q := p + |b.prose|;
    MatchAtBlock(text, q, b.tag, b.code);
    ExtractStep(text, q, Match(Label(b), BlockEnd(p, b)));
  }

  /** Prose followed by a block: the block is the first one found, and
      scanning resumes after it. */
  lemma BlockFound(text: string, p: nat, b: FencedBlock)
    requires BlockAt(text, p, b) && WellFormed(b)
    ensures ExtractFrom(text, p) == [Label(b)] + ExtractFrom(text, BlockEnd(p, b))
  {
    ProseSkipped(text, p, b);
    FencedFound(text, p, b);
  }

  /** extract_code recovers every block laid out, in order, with "text" for
      an empty tag. */
  lemma {:induction false} ExtractLaidOut(text: string, p: nat, bs: seq<FencedBlock>)
    requires LaidOut(text, p, bs)
    requires forall i :: 0 <= i < |bs| ==> WellFormed(bs[i])
    ensures ExtractFrom(text, p) == Labels(bs)
    decreases |bs|
  {
    if bs == [] {
      SkipUnmatched(text, p, |text| - p);
    } else {
      assert WellFormed(bs[0]);
      BlockFound(text, p, bs[0]);
      ExtractLaidOut(text, BlockEnd(p, bs[0]), bs[1..]);
    }
  }

  /** The whole text: extract_code returns the labelled blocks, whatever
      text without a fence follows the last block. */
  lemma ExtractCodeOfRendered(bs: seq<FencedBlock>, tail: string)
    requires forall i :: 0 <= i < |bs| ==> WellFormed(bs[i])
    requires NoFence(tail)
    ensures ExtractFrom(Render(bs, tail), 0) == Labels(bs)
  {
    var text := Render(bs, tail);
    assert text[0..] == text;
    RenderedLaidOut(text, 0, bs, tail);
    ExtractLaidOut(text, 0, bs);
  }

  /** Single backticks in prose and code are no obstacle: inline code
      before a block and a backtick inside its body leave the block as
      rendered. */
  lemma InlineBackticksKept()
    ensures ExtractFrom("`a` ```py\nx`y```", 0) == [CodeBlock("py", "x`y")]
  {
    var b := FencedBlock("`a` ", "py", "x`y");
    assert Render([b], "") == "`a` ```py\nx`y```";
    assert WellFormed(b);
    ExtractCodeOfRendered([b], "");
  }

  // ---------------------------------------------------------------------
  // ContextManager

  /** A history entry; the timestamp is the caller's clock reading. */
  datatype HistoryEntry = HistoryEntry(role: string, content: string, timestamp: real)

  predicate IsSystem(m: HistoryEntry)
  {
    m.role == "system"
  }

  /** `[msg for msg in history if msg["role"] == "system"]`. */
  function Systems(h: seq<HistoryEntry>): (r: seq<HistoryEntry>)
    ensures |r| <= |h|
    ensures forall k :: 0 <= k < |r| ==> IsSystem(r[k])
  {
    if h == [] then [] else (if IsSystem(h[0]) then [h[0]] else []) + Systems(h[1..])
  }

  /** `[msg for msg in history if msg["role"] != "system"]`. */
  function Others(h: seq<HistoryEntry>): (r: seq<HistoryEntry>)
    ensures |r| <= |h|
    ensures forall k :: 0 <= k < |r| ==> !IsSystem(r[k])
  {
    if h == [] then [] else (if IsSystem(h[0]) then [] else [h[0]]) + Others(h[1..])
  }

  /** Python's `s[start:]` for any integer start: a negative start counts
      from the end (clamped at the front), a non-negative one is clamped at
      the end. */
  function SliceFrom<T>(s: seq<T>, start: int): (r: seq<T>)
    ensures start < 0 ==> r == s[if |s| + start < 0 then 0 else |s| + start..]
    ensures start >= 0 ==> r == s[if start > |s| then |s| else start..]
  {
    if start < 0 then s[if |s| + start < 0 then 0 else |s| + start..]
    else s[if start > |s| then |s| else start..]
  }

  /** The history after `add_message` appended to it: when it is longer than
      the maximum, the system messages followed by the last
      `max - #system` other messages, Python slice rules included. */
  function Trimmed(h: seq<HistoryEntry>, maxLength: int): (r: seq<HistoryEntry>)
    ensures |h| <= maxLength ==> r == h
    ensures |r| <= |h|
  {
    SplitByRole(h);
    if |h| > maxLength then Systems(h) + SliceFrom(Others(h), -(maxLength - |Systems(h)|)) else h
  }

  lemma {:induction false} SplitByRole(h: seq<HistoryEntry>)
    ensures |Systems(h)| + |Others(h)| == |h|
  {
    if h != [] {
      SplitByRole(h[1..]);
    }
  }

  lemma {:induction false} SystemsAppend(a: seq<HistoryEntry>, b: seq<HistoryEntry>)
    ensures Systems(a + b) == Systems(a) + Systems(b)
    ensures Others(a + b) == Others(a) + Others(b)
  {
    if a != [] {
      assert (a + b)[1..] == a[1..] + b;
      SystemsAppend(a[1..], b);
    } else {
      assert a + b == b;
    }
  }

  lemma {:induction false} SystemsOfFiltered(h: seq<HistoryEntry>)
    ensures Systems(Systems(h)) == Systems(h) && Others(Systems(h)) == []
    ensures Systems(Others(h)) == [] && Others(Others(h)) == Others(h)
  {
    if h != [] {
      SystemsOfFiltered(h[1..]);
      var s0 := if IsSystem(h[0]) then [h[0]] else [];
      var o0 := if IsSystem(h[0]) then [] else [h[0]];
      SystemsAppend(s0, Systems(h[1..]));
      SystemsAppend(o0, Others(h[1..]));
    }
  }

  lemma OthersOfSlice(h: seq<HistoryEntry>, start: int)
    ensures Systems(SliceFrom(Others(h), start)) == []
    ensures Others(SliceFrom(Others(h), start)) == SliceFrom(Others(h), start)
  {
    var o := Others(h);
    var s := SliceFrom(o, start);
    var i := |o| - |s|;
    assert o == o[..i] + s;
    SystemsOfFiltered(h);
    SystemsAppend(o[..i], s);
  }

  /** Trimming never drops a system message and keeps the order of the
      system messages and of the others; the kept others are the most
      recent ones. */
  lemma TrimKeepsSystems(h: seq<HistoryEntry>, maxLength: int)
    ensures Systems(Trimmed(h, maxLength)) == Systems(h)
    ensures exists i :: 0 <= i <= |Others(h)| && Others(Trimmed(h, maxLength)) == Others(h)[i..]
  {
    var o := Others(h);
    if |h| > maxLength {
      var start := -(maxLength - |Systems(h)|);
      var i := if start < 0 then (if |o| + start < 0 then 0 else |o| + start) else (if start > |o| then |o| else start);
      assert SliceFrom(o, start) == o[i..];
      TrimmedParts(h, maxLength);
      assert 0 <= i <= |o| && Others(Trimmed(h, maxLength)) == o[i..];
    } else {
      assert Trimmed(h, maxLength) == h;
      assert Others(Trimmed(h, maxLength)) == o[0..];
    }
  }

  /** An over-long history, trimmed: its system messages are all of them,
      its others the slice that `add_message` keeps. */
  lemma TrimmedParts(h: seq<HistoryEntry>, maxLength: int)
    requires |h| > maxLength
    ensures Systems(Trimmed(h, maxLength)) == Systems(h)
    ensures Others(Trimmed(h, maxLength)) == SliceFrom(Others(h), -(maxLength - |Systems(h)|))
  {
    var start := -(maxLength - |Systems(h)|);
    var s := SliceFrom(Others(h), start);
    assert Trimmed(h, maxLength) == Systems(h) + s;
    SystemsOfFiltered(h);
    SystemsAppend(Systems(h), s);
    OthersOfSlice(h, start);
  }

  /** When the maximum leaves room for other messages, an over-long history
      is cut back to exactly the maximum. */
  lemma TrimBound(h: seq<HistoryEntry>, maxLength: int)
    requires |h| > maxLength > |Systems(h)|
    ensures |Trimmed(h, maxLength)| == maxLength
  {
    SplitByRole(h);
  }

  /** When the system messages alone fill the maximum, `[-0:]` keeps every
      other message and nothing is removed. */
  lemma TrimNotEnforcedAtSystemCount(h: seq<HistoryEntry>, maxLength: int)
    requires |Systems(h)| == maxLength
    ensures |Trimmed(h, maxLength)| == |h|
  {
    SplitByRole(h);
  }

  class ContextManager {
    var history: seq<HistoryEntry>
    const maxContextLength: int

    constructor (maxContextLength: int)
      ensures history == [] && this.maxContextLength == maxContextLength
    {
      history := [];
      this.maxContextLength := maxContextLength;
    }

    /** `add_message`: append, then trim when over the maximum. */
    method AddMessage(role: string, content: string, now: real)
      modifies this
      ensures history == Trimmed(old(history) + [HistoryEntry(role, content, now)], maxContextLength)
    {
      history := history + [HistoryEntry(role, content, now)];
      ghost var appended := history;
      if |history| > maxContextLength {
        var systemMessages := Systems(history);
        var otherMessages := Others(history);
        otherMessages := SliceFrom(otherMessages, -(maxContextLength - |systemMessages|));
        history := systemMessages + otherMessages;
      }
      assert history == Trimmed(appended, maxContextLength);
    }

    /** `get_conversation_messages`: role and content of every entry, in
        history order, timestamps dropped. */
    function GetConversationMessages(): (r: seq<ChatMessage>)
      reads this
      ensures |r| == |history|
      ensures forall k :: 0 <= k < |r| ==> r[k] == ChatMessage(history[k].role, history[k].content)
    {
      seq(|history|, k requires 0 <= k < |history| reads this => ChatMessage(history[k].role, history[k].content))
    }

    /** `clear_conversation`: only the system messages in order, or
        nothing. */
    method ClearConversation(keepSystem: bool)
      modifies this
      ensures history == (if keepSystem then Systems(old(history)) else [])
    {
      if keepSystem {
        history := Systems(history);
      } else {
        history := [];
      }
    }
  }

  /** After `clear_conversation(True)` every entry is a system message and
      the system messages are those of before. */
  lemma ClearKeepsExactlySystems(h: seq<HistoryEntry>)
    ensures Others(Systems(h)) == [] && Systems(Systems(h)) == Systems(h)
  {
    SystemsOfFiltered(h);
  }
}
