/**
 * The AI routes (backend/routes/ai.js): `/generate`, `/fix` and `/chat`.
 * The language model is an oracle from the query a route sends to the text
 * it answers, or `None` when the call throws; the query carries what the
 * route puts into its prompt, and the prompt wording itself is left out.
 */
module Ai {
  import opened Wrappers
  import opened Text

  datatype Role = User | Assistant

  datatype ChatMessage = ChatMessage(role: Role, content: string)

  /** A project file sent with a chat request. */
  datatype ChatFile = ChatFile(name: string, language: string, content: string)

  /** One `/fix` record: which pass, the first 200 characters of the error, and that the fix was applied. */
  datatype Fix = Fix(iteration: nat, error: string, applied: bool)

  /** What one `/fix` pass asks the model: the pass out of the bound, the language, the code, the error and the project context. */
  datatype FixQuery = FixQuery(iteration: nat, maxIterations: real, language: string, code: string, error: string, context: string)

  /** What `/generate` asks: the system prompt's context and the user's prompt. */
  datatype GenerateQuery = GenerateQuery(context: string, prompt: string)

  /** What `/chat` asks: the system prompt's (enriched) context and the conversation. */
  datatype ChatQuery = ChatQuery(context: string, messages: seq<ChatMessage>)

  datatype AiResponse =
    | Generated(code: string)
    | Fixed(fixedCode: string, iterations: nat, fixes: seq<Fix>)
    | Replied(reply: string)
    | BadRequest(error: string)
    | ServerError

  function Status(r: AiResponse): int
  {
    match r
    case BadRequest(_) => 400
    case ServerError => 500
    case _ => 200
  }

  // ---------------------------------------------------------------- /generate

  /** The `/generate` guard: the prompt is checked before the key. Falsy fields are "". */
  function GenerateGuard(prompt: string, apiKey: string): (err: Option<string>)
    ensures err.None? <==> prompt != "" && apiKey != ""
    ensures prompt == "" ==> err == Some("Prompt is required")
    ensures prompt != "" && apiKey == "" ==> err == Some("API key is required")
  {
    if prompt == "" then Some("Prompt is required")
    else if apiKey == "" then Some("API key is required")
    else None
  }

  /** `POST /generate`: a failing guard answers 400 without asking the model; otherwise one query with the prompt. */
  method HandleGenerate(prompt: string, apiKey: string, context: string, oracle: GenerateQuery -> Option<string>)
    returns (resp: AiResponse, queries: seq<GenerateQuery>)
    ensures GenerateGuard(prompt, apiKey).Some? ==>
      resp == BadRequest(GenerateGuard(prompt, apiKey).value) && Status(resp) == 400 && queries == []
    ensures GenerateGuard(prompt, apiKey).None? ==> queries == [GenerateQuery(context, prompt)]
    ensures GenerateGuard(prompt, apiKey).None? ==>
      resp == match oracle(GenerateQuery(context, prompt)) case None => ServerError case Some(t) => Generated(t)
  {
    var err := GenerateGuard(prompt, apiKey);
    if err.Some? {
      return BadRequest(err.value), [];
    }
    var q := GenerateQuery(context, prompt);
    var answer := oracle(q);
    queries := [q];
    resp := if answer.None? then ServerError else Generated(answer.value);
  }

  // ---------------------------------------------------------------- /fix

  /** The `/fix` body. Falsy strings are ""; `maxIterations` is a JSON number, `None` when absent. */
  datatype FixRequest = FixRequest(code: string, error: string, language: string, apiKey: string,
                                   maxIterations: Option<real>, context: string)

  function MaxIterations(req: FixRequest): real
  {
    match req.maxIterations
    case None => 5.0
    case Some(n) => n
  }

  predicate FixGuardFails(req: FixRequest)
  {
    req.code == "" || req.error == "" || req.apiKey == ""
  }

  /** The query of the first pass. */
  function FirstFixQuery(code: string, error: string, language: string, maxIterations: real, context: string): FixQuery
  {
    FixQuery(1, maxIterations, language, code, error, context)
  }

  /**
   * The `/fix` loop as written: it runs while `iteration < maxIterations`,
   * but leaves after its first pass. So it asks the model at most once, and
   * not at all when the bound is not positive (a positive bound below 1,
   * such as 0.5, still gets its one pass); every fix it records carries
   * its 1-based pass number and the first 200 characters of the original
   * error; the code becomes the trimmed answer after a pass and stays the
   * request's code otherwise. `thrown` says the model call threw.
   */
  method FixLoop(code: string, error: string, language: string, maxIterations: real, context: string,
                 oracle: FixQuery -> Option<string>)
    returns (currentCode: string, iteration: nat, fixes: seq<Fix>, queries: seq<FixQuery>, thrown: bool)
    ensures |fixes| == iteration <= 1
    ensures iteration > 0 ==> 0.0 < maxIterations
    ensures maxIterations >= 1.0 ==> iteration as real <= maxIterations
    ensures forall k :: 0 <= k < |fixes| ==> fixes[k] == Fix(k + 1, Prefix(error, 200), true)
    ensures queries == if maxIterations > 0.0 then [FirstFixQuery(code, error, language, maxIterations, context)] else []
    ensures thrown <==> maxIterations > 0.0 && oracle(FirstFixQuery(code, error, language, maxIterations, context)).None?
    ensures iteration == 0 <==> maxIterations <= 0.0 || thrown
    ensures iteration == 0 ==> currentCode == code
    ensures iteration == 1 ==> currentCode == Trim(oracle(FirstFixQuery(code, error, language, maxIterations, context)).value)
  {
    currentCode, iteration, fixes, queries, thrown := code, 0, [], [], false;
    ghost var q0 := FirstFixQuery(code, error, language, maxIterations, context);
    // `done` is the loop's unconditional `break` after its first pass.
    var done := false;
    while (iteration as real) < maxIterations && !done
      invariant !thrown && iteration == (if done then 1 else 0) && |fixes| == iteration
      invariant !done ==> currentCode == code && fixes == [] && queries == []
      invariant done ==> && 0.0 < maxIterations && queries == [q0] && oracle(q0).Some?
                         && currentCode == Trim(oracle(q0).value) && fixes == [Fix(1, Prefix(error, 200), true)]
      decreases if done then 0 else 1
    {
      var q := FixQuery(iteration + 1, maxIterations, language, currentCode, error, context);
      queries := queries + [q];
      var answer := oracle(q);
      if answer.None? {
        thrown := true;
        return;
      }
      currentCode := Trim(answer.value);
      fixes := fixes + [Fix(iteration + 1, Prefix(error, 200), true)];
      iteration := iteration + 1;
      done := true;
    }
  }

  /**
   * `POST /fix` as written. A failing guard answers 400 without asking the
   * model. Otherwise the loop runs, and building the response then reads
   * `message`, which was declared inside the loop body and is out of scope
   * there: the handler throws and every request that passes the guard is
   * answered 500, whatever the model said.
   */
  method HandleFix(req: FixRequest, oracle: FixQuery -> Option<string>) returns (resp: AiResponse, queries: seq<FixQuery>)
    ensures FixGuardFails(req) ==> resp == BadRequest("Code, error, and API key are required") && queries == []
    ensures !FixGuardFails(req) ==> resp == ServerError && Status(resp) == 500
    ensures !FixGuardFails(req) ==> |queries| == if MaxIterations(req) > 0.0 then 1 else 0
  {
    if FixGuardFails(req) {
      return BadRequest("Code, error, and API key are required"), [];
    }
    var currentCode, iteration, fixes, thrown;
    currentCode, iteration, fixes, queries, thrown := FixLoop(req.code, req.error, req.language, MaxIterations(req), req.context, oracle);
    // Both the model throwing and the out-of-scope `message` end in the catch.
    resp := ServerError;
  }

  /**
   * `POST /fix` as evidently intended: the response carries the loop's
   * state. It reports at most one pass, one fix record per pass, and the
   * trimmed answer as the fixed code (the request's code when no pass ran).
   */
  method HandleFixIntended(req: FixRequest, oracle: FixQuery -> Option<string>) returns (resp: AiResponse, queries: seq<FixQuery>)
    ensures FixGuardFails(req) ==> resp == BadRequest("Code, error, and API key are required") && queries == []
    ensures !FixGuardFails(req) ==>
      var q := FirstFixQuery(req.code, req.error, req.language, MaxIterations(req), req.context);
      && queries == (if MaxIterations(req) > 0.0 then [q] else [])
      && (MaxIterations(req) <= 0.0 ==> resp == Fixed(req.code, 0, []))
      && (MaxIterations(req) > 0.0 && oracle(q).None? ==> resp == ServerError)
      && (MaxIterations(req) > 0.0 && oracle(q).Some? ==>
            resp == Fixed(Trim(oracle(q).value), 1, [Fix(1, Prefix(req.error, 200), true)]))
  {
    if FixGuardFails(req) {
      return BadRequest("Code, error, and API key are required"), [];
    }
    var currentCode, iteration, fixes, thrown;
    currentCode, iteration, fixes, queries, thrown := FixLoop(req.code, req.error, req.language, MaxIterations(req), req.context, oracle);
    if thrown {
      resp := ServerError;
    } else {
      if iteration == 1 {
        assert fixes == [fixes[0]];
      }
      resp := Fixed(currentCode, iteration, fixes);
    }
  }

  // ---------------------------------------------------------------- /chat

  /** The `/chat` guard. */
  function ChatGuard(message: string, apiKey: string): (err: Option<string>)
    ensures err.None? <==> message != "" && apiKey != ""
    ensures err.Some? ==> err.value == "Message and API key are required"
  {
    if message == "" || apiKey == "" then Some("Message and API key are required") else None
  }

  const FilesHeader: string := "\n\n## Project Files:\n"

  /** The section one file adds: a heading with its name and language, then its content fenced as that language. */
  function FileSection(f: ChatFile): string
  {
    "\n### " + f.name + " (" + f.language + ")\n```" + f.language + "\n" + f.content + "\n```\n"
  }

  /** One section per file, in order. */
  function Sections(files: seq<ChatFile>): (r: seq<string>)
    ensures |r| == |files|
    ensures forall i :: 0 <= i < |files| ==> r[i] == FileSection(files[i])
  {
    seq(|files|, i requires 0 <= i < |files| => FileSection(files[i]))
  }

  /** The sections of `files`, in order. */
  function FilesSection(files: seq<ChatFile>): string
  {
    Concat(Sections(files))
  }

  lemma SectionsPrefix(files: seq<ChatFile>, k: nat)
    requires k <= |files|
    ensures Sections(files[..k]) == Sections(files)[..k]
  {
  }

  lemma SectionsSuffix(files: seq<ChatFile>, k: nat)
    requires k <= |files|
    ensures Sections(files[k..]) == Sections(files)[k..]
  {
  }

  /** Each file's section sits between the sections of the files before it and those after it. */
  lemma FilesInOrder(files: seq<ChatFile>, k: nat)
    requires k < |files|
    ensures FilesSection(files) == FilesSection(files[..k]) + FileSection(files[k]) + FilesSection(files[k + 1..])
  {
    var parts := Sections(files);
    calc {
      FilesSection(files);
    ==
      Concat(parts);
    == { ConcatAt(parts, k); }
      Concat(parts[..k]) + parts[k] + Concat(parts[k + 1..]);
    == { SectionsPrefix(files, k); }
      Concat(Sections(files[..k])) + parts[k] + Concat(parts[k + 1..]);
    == { SectionsSuffix(files, k + 1); }
      Concat(Sections(files[..k])) + parts[k] + Concat(Sections(files[k + 1..]));
    }
  }

  /** The sections of two lists of files are the sections of the first list followed by those of the second. */
  lemma FilesSectionAppend(a: seq<ChatFile>, b: seq<ChatFile>)
    ensures FilesSection(a + b) == FilesSection(a) + FilesSection(b)
  {
    assert Sections(a + b) == Sections(a) + Sections(b);
    ConcatAppend(Sections(a), Sections(b));
  }

  /** The context `/chat` hands to the system prompt: unchanged without files, else followed by the header and one section per file. */
  function Enriched(context: string, files: seq<ChatFile>): string
  {
    if files == [] then context else context + FilesHeader + FilesSection(files)
  }

  /** Builds the enriched context by appending, file by file, as the route does. */
  method EnrichContext(context: string, files: seq<ChatFile>) returns (enriched: string)
    ensures enriched == Enriched(context, files)
  {
    enriched := context;
    if |files| > 0 {
      enriched := enriched + FilesHeader;
      ghost var parts := Sections(files);
      for i := 0 to |files|
        invariant enriched == context + FilesHeader + Concat(parts[..i])
      {
        assert parts[..i + 1][..i] == parts[..i];
        enriched := enriched + FileSection(files[i]);
      }
      assert parts[..|files|] == parts;
    }
  }

  /** Without files the context is passed on untouched; with files it keeps the context as its start. */
  lemma EnrichedKeepsContext(context: string, files: seq<ChatFile>)
    ensures files == [] ==> Enriched(context, files) == context
    ensures StartsWith(Enriched(context, files), context)
    ensures files != [] ==> StartsWith(Enriched(context, files)[|context|..], FilesHeader)
  {
    if files != [] {
      var rest := FilesSection(files);
      assert Enriched(context, files) == context + (FilesHeader + rest);
      AppendStartsWith(context, FilesHeader + rest);
      AppendStartsWith(FilesHeader, rest);
    }
  }

  /** The conversation sent: the history as given, then exactly one user message. */
  function ChatMessages(history: seq<ChatMessage>, message: string): (msgs: seq<ChatMessage>)
    ensures |msgs| == |history| + 1
    ensures msgs[..|history|] == history
    ensures msgs[|history|] == ChatMessage(User, message)
  {
    history + [ChatMessage(User, message)]
  }

  /** `POST /chat`: a failing guard answers 400 without asking the model; otherwise one query with the enriched context and the conversation. */
  method HandleChat(message: string, apiKey: string, history: seq<ChatMessage>, context: string, files: seq<ChatFile>,
                    oracle: ChatQuery -> Option<string>)
    returns (resp: AiResponse, queries: seq<ChatQuery>)
    ensures ChatGuard(message, apiKey).Some? ==>
      resp == BadRequest("Message and API key are required") && Status(resp) == 400 && queries == []
    ensures ChatGuard(message, apiKey).None? ==>
      queries == [ChatQuery(Enriched(context, files), ChatMessages(history, message))]
    ensures ChatGuard(message, apiKey).None? ==>
      resp == match oracle(queries[0]) case None => ServerError case Some(t) => Replied(t)
  {
    var err := ChatGuard(message, apiKey);
    if err.Some? {
      return BadRequest(err.value), [];
    }
    var enriched := EnrichContext(context, files);
    var q := ChatQuery(enriched, history + [ChatMessage(User, message)]);
    var answer := oracle(q);
    queries := [q];
    resp := if answer.None? then ServerError else Replied(answer.value);
  }
}
