/** The language-model client: the chat requests it sends, and how it turns the model's
    reply into the JSON text the controller parses. The model service and the JSON
    decoder are parameters: `Llm` answers a request, `Decoder` is `json.loads` (None
    when the text is not JSON). */
module OpenAIClient {
  import opened Common
  import opened Text
  import opened Json

  datatype Message = Message(role: string, content: string)

  /** A chat-completion request: the messages, the sampling temperature, and the token
      limit when one is set. */
  datatype ChatRequest = ChatRequest(messages: seq<Message>, temperature: real, maxTokens: Option<nat>)

  /** The first choice's message content, or the text of the exception the SDK raised. */
  datatype Completion = Completed(content: string) | Failed(reason: string)

  type Llm = ChatRequest -> Completion
  type Decoder = string -> Option<Json>

  /** The JSON text a parsing step returns, with the value `json.loads` gives for it:
      either text taken verbatim from the model, or a fixed fallback descriptor. */
  datatype LlmJson = FromModel(text: string, value: Json) | Fallback(value: Json)

  // ---------------------------------------------------------------- JSON candidate

  /** The first `c` at or after `i`. */
  function FirstAt(s: string, c: char, i: nat): (r: Option<nat>)
    requires i <= |s|
    ensures r.Some? ==> i <= r.value < |s| && s[r.value] == c &&
                        forall k :: i <= k < r.value ==> s[k] != c
    ensures r.None? ==> forall k :: i <= k < |s| ==> s[k] != c
    decreases |s| - i
  {
    if i == |s| then None
    else if s[i] == c then Some(i)
    else FirstAt(s, c, i + 1)
  }

  /** The last `c` before `n`. */
  function LastBefore(s: string, c: char, n: nat): (r: Option<nat>)
    requires n <= |s|
    ensures r.Some? ==> r.value < n && s[r.value] == c &&
                        forall k :: r.value < k < n ==> s[k] != c
    ensures r.None? ==> forall k :: 0 <= k < n ==> s[k] != c
  {
    if n == 0 then None
    else if s[n - 1] == c then Some(n - 1)
    else LastBefore(s, c, n - 1)
  }

  /** `re.search(r'(\{.*\})', s, re.DOTALL).group(1)`: the search starts at the first
      `{`, and the greedy `.*` reaches the last `}`. */
  function Candidate(s: string): Option<string> {
    var open := FirstAt(s, '{', 0);
    var close := LastBefore(s, '}', |s|);
    if open.Some? && close.Some? && open.value < close.value then Some(s[open.value..close.value + 1])
    else None
  }

  /** A candidate exists exactly when some `}` follows some `{`; it runs from the first
      `{` to the last `}`, both included. */
  lemma CandidateSpec(s: string)
    ensures Candidate(s).Some? <==> exists i, j :: 0 <= i < j < |s| && s[i] == '{' && s[j] == '}'
    ensures Candidate(s).Some? ==>
              exists i, j :: 0 <= i < j < |s| && Candidate(s).value == s[i..j + 1] &&
                s[i] == '{' && s[j] == '}' &&
                (forall k :: 0 <= k < i ==> s[k] != '{') &&
                (forall k :: j < k < |s| ==> s[k] != '}')
  {
    var open := FirstAt(s, '{', 0);
    var close := LastBefore(s, '}', |s|);
    if exists i, j :: 0 <= i < j < |s| && s[i] == '{' && s[j] == '}' {
      var i, j :| 0 <= i < j < |s| && s[i] == '{' && s[j] == '}';
      assert open.Some? && open.value <= i;
      assert close.Some? && j <= close.value;
      var a, b := open.value, close.value;
      assert Candidate(s).value == s[a..b + 1];
    }
  }

  /** The span is greedy: whenever a `{` at `i` comes before a `}` at `j`, there is a
      candidate, from a `{` at or before `i` to a `}` at or after `j` (for "ok {1} {2}." it is "{1} {2}"). */
  lemma CandidateGreedy(s: string, i: nat, j: nat)
    requires i < j < |s| && s[i] == '{' && s[j] == '}'
    ensures Candidate(s).Some?
    ensures exists a, b :: 0 <= a <= i && j <= b < |s| && s[a] == '{' && s[b] == '}' &&
              Candidate(s).value == s[a..b + 1]
  {
    var open := FirstAt(s, '{', 0);
    var close := LastBefore(s, '}', |s|);
    assert open.Some? && open.value <= i;
    assert close.Some? && j <= close.value;
    var a, b := open.value, close.value;
    assert Candidate(s).value == s[a..b + 1];
  }

  /** When every `}` comes before every `{` (as in "} no {"), there is no candidate. */
  lemma CandidateNeedsCloseAfterOpen(s: string)
    requires forall i, j :: 0 <= i < |s| && 0 <= j < |s| && s[i] == '{' && s[j] == '}' ==> j < i
    ensures Candidate(s) == None
  {
    CandidateSpec(s);
  }

  /** The validation step shared by both parsers: a candidate that decodes is returned
      verbatim, anything else is the fallback. */
  function Validated(decode: Decoder, text: string, fallback: Json): (r: LlmJson)
    ensures r.FromModel? <==> Candidate(text).Some? && decode(Candidate(text).value).Some?
    ensures r.FromModel? ==> r.text == Candidate(text).value && decode(r.text) == Some(r.value)
    ensures r.Fallback? ==> r.value == fallback
  {
    match Candidate(text)
    case None => Fallback(fallback)
    case Some(candidate) =>
      match decode(candidate)
      case Some(value) => FromModel(candidate, value)
      case None => Fallback(fallback)
  }

  /** Text taken from the model's reply is a span of the reply that opens with `{`,
      closes with `}` and decodes to the value returned with it. */
  lemma ValidatedFromReply(decode: Decoder, text: string, fallback: Json)
    ensures var r := Validated(decode, text, fallback);
            r.FromModel? ==>
              |r.text| >= 2 && r.text[0] == '{' && r.text[|r.text| - 1] == '}' &&
              (exists a: nat :: OccursAt(text, r.text, a)) &&
              decode(r.text) == Some(r.value)
  {
    var r := Validated(decode, text, fallback);
    if r.FromModel? {
      var i := FirstAt(text, '{', 0).value;
      var j := LastBefore(text, '}', |text|).value;
      assert r.text == text[i..j + 1];
      assert OccursAt(text, r.text, i);
    }
  }

  // ---------------------------------------------------------------- intent analysis

  const IntentSystemPrompt := @"당신은 사용자의 입력을 분석하여 적절한 작업을 결정하는 전문가입니다.
다음 중 하나의 의도를 결정해야 합니다:

1. notion_command: Notion 관련 작업 (데이터베이스 생성, 페이지 추가 등)
2. general_chat: 일반적인 대화나 질문

응답 형식:
{
    ""intent"": ""notion_command 또는 general_chat"",
    ""explanation"": ""의도 판단 이유에 대한 간단한 설명""
}

Notion 관련 키워드:
- 데이터베이스, 페이지, 노션, Notion, 추가, 생성, 조회, 목록

예시:
입력: ""KT 데이터베이스에 새 페이지 추가해줘""
응답: {""intent"": ""notion_command"", ""explanation"": ""Notion 데이터베이스 작업 요청""}

입력: ""오늘 날씨 어때?""
응답: {""intent"": ""general_chat"", ""explanation"": ""일반적인 날씨 관련 질문""}

중요: 반드시 위의 JSON 형식으로만 응답하고, 다른 텍스트나 설명은 추가하지 마세요."

  /** `{"intent": "general_chat", "explanation": ...}`, the fixed intent descriptor. */
  function GeneralChat(explanation: string): Json {
    JObj([("intent", JStr("general_chat")), ("explanation", JStr(explanation))])
  }

  const IntentUnparsed := "의도 분석 실패, 일반 대화로 처리"
  const IntentCallFailed := "오류 발생"

  function IntentRequest(userInput: string): ChatRequest {
    ChatRequest([Message("system", IntentSystemPrompt), Message("user", userInput)], 0.3, None)
  }

  /** `analyze_intent`: the stripped model reply, validated as JSON. */
  function AnalyzeIntent(llm: Llm, decode: Decoder, userInput: string): LlmJson {
    match llm(IntentRequest(userInput))
    case Failed(_) => Fallback(GeneralChat(IntentCallFailed))
    case Completed(content) => Validated(decode, Strip(content), GeneralChat(IntentUnparsed))
  }

  /** A reply holding a valid JSON object is passed on verbatim; a reply without one
      gives general chat "의도 분석 실패, 일반 대화로 처리"; a failed call gives general
      chat "오류 발생". No outcome raises. */
  lemma AnalyzeIntentOutcomes(llm: Llm, decode: Decoder, userInput: string)
    ensures var r := AnalyzeIntent(llm, decode, userInput);
            llm(IntentRequest(userInput)).Failed? ==> r == Fallback(GeneralChat(IntentCallFailed))
    ensures var r := AnalyzeIntent(llm, decode, userInput);
            var reply := llm(IntentRequest(userInput));
            reply.Completed? ==>
              (r.FromModel? <==> Candidate(Strip(reply.content)).Some? &&
                                 decode(Candidate(Strip(reply.content)).value).Some?) &&
              (r.FromModel? ==> r.text == Candidate(Strip(reply.content)).value && decode(r.text) == Some(r.value)) &&
              (r.Fallback? ==> r.value == GeneralChat(IntentUnparsed))
  {
  }

  /** Stripping the reply first never changes the candidate: braces are not whitespace. */
  lemma {:induction false} CandidateIgnoresStrip(s: string)
    ensures Candidate(Strip(s)) == Candidate(s)
  {
    StripSpec(s);
    var t := Strip(s);
    var a := StripStart(s);
    BlankHasNo(s, a, t, '{');
    BlankHasNo(s, a, t, '}');
    CandidateOfInfix(s, a, t);
  }

  /** The candidate of a text is the candidate of any text that embeds it with no brace
      around it. */
  lemma CandidateOfInfix(s: string, a: nat, t: string)
    requires a + |t| <= |s| && s[a..a + |t|] == t
    requires forall k :: 0 <= k < a ==> s[k] != '{' && s[k] != '}'
    requires forall k :: a + |t| <= k < |s| ==> s[k] != '{' && s[k] != '}'
    ensures Candidate(t) == Candidate(s)
  {
    SlicePointwise(s, a, t);
    FirstAtPadded(s, a, t, '{');
    LastBeforePadded(s, a, t, '}');
    var o1, c1 := FirstAt(t, '{', 0), LastBefore(t, '}', |t|);
    if o1.Some? && c1.Some? && o1.value < c1.value {
      SliceShift(s, a, t, o1.value, c1.value + 1);
    }
  }

  lemma SlicePointwise(s: string, a: nat, t: string)
    requires a + |t| <= |s| && s[a..a + |t|] == t
    ensures forall k :: 0 <= k < |t| ==> s[a + k] == t[k]
  {
    forall k | 0 <= k < |t| ensures s[a + k] == t[k] {
      assert s[a..a + |t|][k] == t[k];
    }
  }

  lemma SliceShift(s: string, a: nat, t: string, i: nat, j: nat)
    requires a + |t| <= |s| && s[a..a + |t|] == t && i <= j <= |t|
    ensures s[a + i..a + j] == t[i..j]
  {
    forall k | 0 <= k < j - i ensures s[a + i..a + j][k] == t[i..j][k] {
      assert s[a + i + k] == s[a..a + |t|][i + k];
    }
  }

  /** Whitespace around the stripped text holds no brace. */
  lemma BlankHasNo(s: string, a: nat, t: string, c: char)
    requires c == '{' || c == '}'
    requires a + |t| <= |s| && IsBlank(s[..a]) && IsBlank(s[a + |t|..])
    ensures forall k :: 0 <= k < a ==> s[k] != c
    ensures forall k :: a + |t| <= k < |s| ==> s[k] != c
  {
    forall k | 0 <= k < a ensures s[k] != c {
      assert s[..a][k] == s[k];
    }
    forall k | a + |t| <= k < |s| ensures s[k] != c {
      assert s[a + |t|..][k - a - |t|] == s[k];
    }
  }

  /** The first `c` of `t` is the first of `s` when `t` sits at `a` in `s` with no `c`
      around it. */
  lemma FirstAtPadded(s: string, a: nat, t: string, c: char)
    requires a + |t| <= |s| && forall k :: 0 <= k < |t| ==> s[a + k] == t[k]
    requires forall k :: 0 <= k < a ==> s[k] != c
    requires forall k :: a + |t| <= k < |s| ==> s[k] != c
    ensures FirstAt(t, c, 0).Some? ==> FirstAt(s, c, 0) == Some(a + FirstAt(t, c, 0).value)
    ensures FirstAt(t, c, 0).None? ==> FirstAt(s, c, 0).None?
  {
    var o := FirstAt(t, c, 0);
    if o.Some? {
      assert s[a + o.value] == c;
      forall k | 0 <= k < a + o.value ensures s[k] != c {
        if k >= a { assert s[k] == t[k - a]; }
      }
    } else {
      forall k | 0 <= k < |s| ensures s[k] != c {
        if a <= k < a + |t| { assert s[k] == t[k - a]; }
      }
    }
  }

  /** The last `c` of `s` is at `i` when `s[i]` is one and none follows. */
  lemma LastBeforeIs(s: string, c: char, i: nat)
    requires i < |s| && s[i] == c && forall k :: i < k < |s| ==> s[k] != c
    ensures LastBefore(s, c, |s|) == Some(i)
  {
    var r := LastBefore(s, c, |s|);
    assert r.Some?;
    assert r.value >= i;
  }

  /** Likewise for the last `c`. */
  lemma LastBeforePadded(s: string, a: nat, t: string, c: char)
    requires a + |t| <= |s| && forall k :: 0 <= k < |t| ==> s[a + k] == t[k]
    requires forall k :: 0 <= k < a ==> s[k] != c
    requires forall k :: a + |t| <= k < |s| ==> s[k] != c
    ensures LastBefore(t, c, |t|).Some? ==> LastBefore(s, c, |s|) == Some(a + LastBefore(t, c, |t|).value)
    ensures LastBefore(t, c, |t|).None? ==> LastBefore(s, c, |s|).None?
  {
    var l := LastBefore(t, c, |t|);
    if l.Some? {
      var i := a + l.value;
      forall k | i < k < a + |t| ensures s[k] != c {
        assert s[k] == t[k - a];
      }
      assert s[i] == t[l.value];
      LastBeforeIs(s, c, i);
    } else {
      forall k | a <= k < a + |t| ensures s[k] != c {
        assert s[k] == t[k - a];
      }
      LastBeforeNone(s, c);
    }
  }

  lemma LastBeforeNone(s: string, c: char)
    requires forall k :: 0 <= k < |s| ==> s[k] != c
    ensures LastBefore(s, c, |s|).None?
  {
  }

  // ---------------------------------------------------------------- text generation

  const DefaultSystemPrompt := "You are a helpful assistant."
  const TextErrorPrefix := "텍스트 생성 오류: "

  /** The two messages of `generate_text`: the system prompt when one is given and
      non-empty, else the default, then the prompt. */
  function TextMessages(prompt: string, systemPrompt: Option<string>): seq<Message> {
    var system := if systemPrompt.Some? && systemPrompt.value != "" then systemPrompt.value else DefaultSystemPrompt;
    [Message("system", system), Message("user", prompt)]
  }

  /** `generate_text` with its default token limit and temperature; any failure is
      returned as text. */
  function GeneratedText(llm: Llm, prompt: string, systemPrompt: Option<string>): string {
    match llm(ChatRequest(TextMessages(prompt, systemPrompt), 0.7, Some(1000)))
    case Completed(content) => content
    case Failed(reason) => TextErrorPrefix + reason
  }

  method BuildTextMessages(prompt: string, systemPrompt: Option<string>) returns (messages: seq<Message>)
    ensures messages == TextMessages(prompt, systemPrompt)
    ensures |messages| == 2 && messages[0].role == "system" && messages[1] == Message("user", prompt)
    ensures messages[0].content == if systemPrompt.Some? && systemPrompt.value != "" then systemPrompt.value
                                   else DefaultSystemPrompt
  {
    messages := [];
    if systemPrompt.Some? && systemPrompt.value != "" {
      messages := messages + [Message("system", systemPrompt.value)];
    } else {
      messages := messages + [Message("system", DefaultSystemPrompt)];
    }
    messages := messages + [Message("user", prompt)];
  }

  method GenerateText(llm: Llm, prompt: string, systemPrompt: Option<string>) returns (text: string)
    ensures text == GeneratedText(llm, prompt, systemPrompt)
    ensures var reply := llm(ChatRequest(TextMessages(prompt, systemPrompt), 0.7, Some(1000)));
            reply.Failed? ==> StartsWith(text, TextErrorPrefix)
  {
    var messages := BuildTextMessages(prompt, systemPrompt);
    var reply := llm(ChatRequest(messages, 0.7, Some(1000)));
    match reply {
      case Completed(content) => text := content;
      case Failed(reason) => text := TextErrorPrefix + reason;
    }
  }

  // ---------------------------------------------------------------- content generation

  const TextInstruction := "노션 페이지에 들어갈 텍스트 콘텐츠를 생성해주세요."
  const TodoInstruction := "노션 To-Do 목록을 생성해주세요. 각 항목은 새로운 줄에 '- [ ] ' 형식으로 작성해주세요."
  const TableInstruction := "노션 테이블 형식의 데이터를 생성해주세요. 마크다운 테이블 형식으로 작성해주세요."
  const BulletInstruction := "노션 글머리 기호 목록을 생성해주세요. 각 항목은 새로운 줄에 '- ' 형식으로 작성해주세요."

  /** The instruction `generate_notion_content` puts before the prompt. */
  function Instruction(contentType: Json): (instruction: string)
    ensures instruction == "" <==> contentType !in {JStr("text"), JStr("todo"), JStr("table"), JStr("bullet")}
  {
    if contentType == JStr("text") then TextInstruction
    else if contentType == JStr("todo") then TodoInstruction
    else if contentType == JStr("table") then TableInstruction
    else if contentType == JStr("bullet") then BulletInstruction
    else ""
  }

  function ContentPrompt(prompt: Json, contentType: Json): string {
    Instruction(contentType) + "\n\n" + PyStr(prompt)
  }

  /** `generate_notion_content`; the default content type is "text". */
  function GenerateNotionContent(llm: Llm, prompt: Json, contentType: Json): string {
    GeneratedText(llm, ContentPrompt(prompt, contentType), None)
  }

  /** The four content types get four distinct instructions; the full prompt is the
      instruction, a blank line, and the prompt's text. */
  lemma ContentPromptShape(prompt: Json, contentType: Json)
    ensures |{TextInstruction, TodoInstruction, TableInstruction, BulletInstruction}| == 4
    ensures StartsWith(ContentPrompt(prompt, contentType), Instruction(contentType) + "\n\n")
    ensures prompt.JStr? ==> ContentPrompt(prompt, contentType)[|Instruction(contentType)| + 2..] == prompt.s
  {
  }

  // ---------------------------------------------------------------- command parsing

  const CommandSystemPrompt := @"당신은 사용자 명령을 노션 API 작업으로 변환하는 전문가입니다.
사용자의 자연어 명령을 분석하여 적절한 노션 API 작업과 필요한 매개변수를 JSON 형식으로 제공해야 합니다.

가능한 작업 유형:
1. get_databases: 사용자의 데이터베이스 목록 조회
2. query_database: 특정 데이터베이스에서 조건으로 검색
3. create_page: 데이터베이스에 새 페이지 생성
4. create_page_in_workspace: 워크스페이스에 새 페이지 생성 (데이터베이스 없이)
5. create_database: 새 데이터베이스 생성
6. update_page: 기존 페이지 업데이트
7. generate_content: AI로 콘텐츠 생성

중요: 데이터베이스나 페이지를 식별할 때는 ID 대신 이름을 사용하세요.
예를 들어, ""KT 데이터베이스 ID"" 대신 단순히 ""KT""라고 지정하세요.
시스템이 이름으로 실제 ID를 찾을 수 있습니다.

데이터베이스 생성 시 필요한 매개변수 예시:
{
  ""action"": ""create_database"",
  ""parameters"": {
    ""title"": ""데이터베이스 이름"",
    ""parent_page_id"": ""부모_페이지_ID"" // 선택 사항, 없으면 자동으로 생성됨
  },
  ""description"": ""새 데이터베이스 생성""
}

워크스페이스에 페이지 생성 시 필요한 매개변수 예시:
{
  ""action"": ""create_page_in_workspace"",
  ""parameters"": {
    ""title"": ""페이지 제목"",
    ""content_prompt"": ""페이지 내용 생성을 위한 프롬프트"", // 선택 사항
    ""content_type"": ""text"", // text, todo, bullet 중 하나, 기본값은 text
    ""icon"": ""🚀"" // 선택 사항, 이모지 또는 이미지 URL
  },
  ""description"": ""워크스페이스에 새 페이지 생성""
}

데이터베이스 내 페이지 생성 시 필요한 매개변수 예시:
{
  ""action"": ""create_page"",
  ""parameters"": {
    ""parent_id"": ""데이터베이스 이름"", // 데이터베이스의 정확한 ID 대신 이름을 사용
    ""title"": ""페이지 제목"", // 페이지 제목
    ""properties"": {
      ""Name"": { // 데이터베이스의 필드 이름에 따라 다름, ""Name""은 예시
        ""title"": [{ ""text"": { ""content"": ""페이지 제목"" } }]
      }
      // 필요한 경우 다른 속성 추가
    },
    ""content_prompt"": ""페이지 내용 생성을 위한 프롬프트"", // 선택 사항
    ""content_type"": ""text"" // text, todo, bullet 중 하나, 기본값은 text
  },
  ""description"": ""데이터베이스에 새 페이지 생성""
}

데이터베이스 쿼리 시 필요한 매개변수 예시:
{
  ""action"": ""query_database"",
  ""parameters"": {
    ""database_id"": ""데이터베이스 이름"", // 데이터베이스의 정확한 ID 대신 이름을 사용
    ""filter"": { // 선택 사항, 필터 조건
      ""property"": ""속성명"",
      ""조건 타입"": { ""조건 값"": ""값"" }
    }
  },
  ""description"": ""데이터베이스 내 항목 조회""
}

사용자가 ""xx 데이터베이스 만들어줘""와 같이 요청하면 반드시 create_database 작업을 사용하세요.
사용자가 그냥 페이지를 생성하려는 의도면 create_page_in_workspace 작업을 사용하세요.
데이터베이스에 항목을 추가하려는 의도면 create_page 작업을 사용하세요.
사용자가 데이터베이스 내용이나 항목을 보고 싶어하면 반드시 query_database 작업을 사용하세요.

JSON 응답 형식은 다음과 같아야 합니다:
{
  ""action"": ""작업유형"",
  ""parameters"": {
    // 작업에 필요한 매개변수들
  },
  ""description"": ""작업에 대한 간단한 설명""
}

중요: 반드시 유효한 JSON 형식으로만 응답하고, JSON 외에 다른 텍스트나 설명은 추가하지 마세요."
  const CommandPromptPrefix := "다음 사용자 명령을 노션 작업으로 변환해주세요: "

  const CommandUnparsed := "JSON 파싱 실패로 기본 작업 수행"
  /** The description of the outer handler's default; that handler is unreachable, as
      `generate_text` returns its failures as text. */
  const CommandFailed := "오류로 인한 기본 작업 수행"

  /** The fallback descriptor: a workspace page titled "새 페이지" whose content is
      generated from the command itself. */
  function DefaultCommand(command: string, description: string): Json {
    JObj([("action", JStr("create_page_in_workspace")),
          ("parameters", JObj([("title", JStr("새 페이지")), ("content_prompt", JStr(command))])),
          ("description", JStr(description))])
  }

  /** `parse_notion_command`. */
  function ParseNotionCommand(llm: Llm, decode: Decoder, command: string): LlmJson {
    var response := GeneratedText(llm, CommandPromptPrefix + command, Some(CommandSystemPrompt));
    Validated(decode, response, DefaultCommand(command, CommandUnparsed))
  }

  /** A valid candidate of the generated text is returned verbatim; otherwise the
      result is the default descriptor for the command. */
  lemma ParseNotionCommandOutcomes(llm: Llm, decode: Decoder, command: string)
    ensures var r := ParseNotionCommand(llm, decode, command);
            var response := GeneratedText(llm, CommandPromptPrefix + command, Some(CommandSystemPrompt));
            (r.FromModel? <==> Candidate(response).Some? && decode(Candidate(response).value).Some?) &&
            (r.FromModel? ==> r.text == Candidate(response).value && decode(r.text) == Some(r.value)) &&
            (r.Fallback? ==> r.value == DefaultCommand(command, CommandUnparsed))
  {
  }

  /** Every default descriptor, whichever path produced it, asks for a workspace page
      titled "새 페이지" with the command, verbatim, as its content prompt. */
  lemma DefaultCommandFields(command: string, description: string)
    ensures var d := DefaultCommand(command, description);
            Index(d, "action") == Ok(JStr("create_page_in_workspace")) &&
            Index(d, "description") == Ok(JStr(description)) &&
            (var ps := Index(d, "parameters");
             ps.Ok? && Index(ps.value, "title") == Ok(JStr("새 페이지")) &&
             Index(ps.value, "content_prompt") == Ok(JStr(command)))
  {
    var d := DefaultCommand(command, description);
    assert UniqueKeys(d.fields);
    LookupUnique(d.fields, 0);
    LookupUnique(d.fields, 1);
    LookupUnique(d.fields, 2);
    var ps := d.fields[1].1;
    assert UniqueKeys(ps.fields);
    LookupUnique(ps.fields, 0);
    LookupUnique(ps.fields, 1);
  }

  // ---------------------------------------------------------------- chat

  const ChatSystemPrompt := "당신은 친절하고 지식이 풍부한 AI 어시스턴트입니다. 사용자의 질문에 명확하고 도움이 되는 답변을 제공합니다."
  const ChatErrorPrefix := "대화 처리 오류: "

  /** The messages of `chat`: the system prompt, the history in order, the new input. */
  function ChatMessages(userInput: string, history: seq<Message>): seq<Message> {
    [Message("system", ChatSystemPrompt)] + history + [Message("user", userInput)]
  }

  function ChatReply(llm: Llm, userInput: string, history: seq<Message>): string {
    match llm(ChatRequest(ChatMessages(userInput, history), 0.7, None))
    case Completed(content) => content
    case Failed(reason) => ChatErrorPrefix + reason
  }

  method BuildChatMessages(userInput: string, history: seq<Message>) returns (messages: seq<Message>)
    ensures messages == ChatMessages(userInput, history)
    ensures |messages| == |history| + 2
    ensures messages[0] == Message("system", ChatSystemPrompt)
    ensures messages[1..|history| + 1] == history
    ensures messages[|history| + 1] == Message("user", userInput)
  {
    messages := [Message("system", ChatSystemPrompt)];
    if history != [] {
      messages := messages + history;
    }
    messages := messages + [Message("user", userInput)];
    assert messages[1..|history| + 1] == history;
  }

  method Chat(llm: Llm, userInput: string, history: seq<Message>) returns (reply: string)
    ensures reply == ChatReply(llm, userInput, history)
    ensures llm(ChatRequest(ChatMessages(userInput, history), 0.7, None)).Failed? ==>
              StartsWith(reply, ChatErrorPrefix)
  {
    var messages := BuildChatMessages(userInput, history);
    match llm(ChatRequest(messages, 0.7, None)) {
      case Completed(content) => reply := content;
      case Failed(reason) => reply := ChatErrorPrefix + reason;
    }
  }
}
