/**
 * The GigaChat client: the OAuth token exchange and the completion call.
 * Both HTTP calls are given outcomes (what the server answered, or that the
 * request failed); the model computes what is sent and what is returned.
 */
module LlmClients {
  import opened Wrappers
  import opened Text
  import opened Seqs

  /** One entry of the `messages` list of a completion request. */
  datatype ChatMessage = ChatMessage(role: string, content: string)

  /** The OAuth POST's outcome: a 2xx JSON object, or a request exception (network, non-2xx). */
  datatype TokenExchange = TokenGranted(body: map<string, string>) | TokenRequestFailed

  /** The completion POST's outcome: a 2xx reply whose first choice's content may be missing, or a request exception. */
  datatype Completion = Completed(content: Option<string>) | CompletionRequestFailed

  /** The `(access_token, error)` tuple. */
  datatype TokenPair = TokenPair(token: Option<string>, error: Option<string>)

  /** What a Python call does: return a value, or let a `KeyError` escape to its caller. */
  datatype Raising<T> = Returns(value: T) | RaisesKeyError(key: string)

  /** The token step: the credential sent in the Basic header (if a request was made) and the call's outcome. */
  datatype TokenCall = TokenCall(sentCredential: Option<string>, outcome: Raising<TokenPair>)

  /** The completion request actually sent: the bearer token and the message list. */
  datatype CompletionRequest = CompletionRequest(bearer: string, messages: seq<ChatMessage>)

  // The fixed texts, written in pieces so that the verifier reads their characters.
  const CredentialsMissingText := "Ошибка: " + "Учетные данные для GigaChat не настроены."
  const AuthFailedText := "Ошибка " + "аутентификации GigaChat. Проверьте ваш GIGACHAT_AUTH_CREDENTIALS."
  /** The prefix the chat handler looks for to recognise a failed turn. */
  const ErrorMarker := "Извините, произошла ошибка"
  const RequestFailedText := ErrorMarker + " при обращении к GigaChat."
  const MalformedReplyText := ErrorMarker + " при обработке ответа от GigaChat."

  // ---------------------------------------------------------------------
  // get_gigachat_token
  // ---------------------------------------------------------------------

  /**
   * get_gigachat_token for the configured credential `config` (None when the
   * setting is absent). The credential is stripped of surrounding quotes; when
   * nothing is left no request is sent and the configuration error comes back.
   * Otherwise the stripped credential is sent; a failed request gives the
   * authentication error, a granted one its `access_token`, and a granted reply
   * without that key raises. Whenever the call returns, exactly one of the two
   * components is present.
   */
  function GetToken(config: Option<string>, exchange: TokenExchange): (r: TokenCall)
    ensures r.sentCredential.None? <==> config.None? || AllQuotes(config.value)
    ensures r.sentCredential.Some? ==> r.sentCredential.value == StripQuotes(config.value) != ""
    ensures r.sentCredential.None? ==> r.outcome == Returns(TokenPair(None, Some(CredentialsMissingText)))
    ensures r.sentCredential.Some? && exchange.TokenRequestFailed? ==> r.outcome == Returns(TokenPair(None, Some(AuthFailedText)))
    ensures r.sentCredential.Some? && exchange.TokenGranted? ==>
      r.outcome == if "access_token" in exchange.body then Returns(TokenPair(Some(exchange.body["access_token"]), None))
                   else RaisesKeyError("access_token")
    ensures r.outcome.Returns? ==> (r.outcome.value.token.None? <==> r.outcome.value.error.Some?)
  {
    // `if cred: cred = cred.strip("\"'")` then `if not cred: ...`
    if config.None? || config.value == "" then
      TokenCall(None, Returns(TokenPair(None, Some(CredentialsMissingText))))
    else
      var credential := StripQuotes(config.value);
      StripQuotesEmpty(config.value);
      if credential == "" then
        TokenCall(None, Returns(TokenPair(None, Some(CredentialsMissingText))))
      else
        var outcome :=
          match exchange
          case TokenRequestFailed => Returns(TokenPair(None, Some(AuthFailedText)))
          case TokenGranted(body) =>
            if "access_token" in body then Returns(TokenPair(Some(body["access_token"]), None))
            else RaisesKeyError("access_token");
        TokenCall(Some(credential), outcome)
  }

  // ---------------------------------------------------------------------
  // get_gigachat_response: re-parsing the flattened history
  // ---------------------------------------------------------------------

  /**
   * One history line: `line.split(": ", 1)` when the line holds the
   * separator, nothing otherwise.
   */
  function ParseLine(line: string): (r: seq<ChatMessage>)
    ensures |r| <= 1
  {
    match FindSep(line)
    case None => []
    case Some(i) => [ChatMessage(Lower(line[..i]), line[i + 2..])]
  }

  /**
   * A line with `": "` yields one message whose role is the lowered text
   * before the first separator and whose content is everything after it; a
   * line without a separator yields nothing.
   */
  lemma ParseLineSplits(line: string)
    ensures |ParseLine(line)| == (if HasSep(line) then 1 else 0)
    ensures var r := ParseLine(line);
            r != [] ==> exists head :: !HasSep(head) && Lower(head) == r[0].role && line == head + ": " + r[0].content
  {
    FindSepIsSome(line);
    if FindSep(line).Some? {
      var i := FindSep(line).value;
      var head := line[..i];
      assert line == head + ": " + line[i + 2..];
      assert !HasSep(head) by {
        forall k | 0 <= k < |head| ensures !SepAt(head, k) {
          assert !SepAt(line, k);
        }
      }
    }
  }

  /**
   * The messages the history loop appends for `lines`, in line order: at most
   * one per line.
   */
  function ParseLines(lines: seq<string>): (r: seq<ChatMessage>)
    ensures |r| <= |lines|
  {
    if lines == [] then [] else ParseLines(lines[..|lines| - 1]) + ParseLine(lines[|lines| - 1])
  }

  /** Parsing distributes over concatenation of line lists, so order is kept. */
  lemma {:induction false} ParseLinesConcat(a: seq<string>, b: seq<string>)
    ensures ParseLines(a + b) == ParseLines(a) + ParseLines(b)
    decreases |b|
  {
    if b == [] {
      assert a + b == a;
    } else {
      var init, last := b[..|b| - 1], b[|b| - 1];
      ParseLinesConcat(a, init);
      DropLast(a, b);
      AppendAssoc(ParseLines(a), ParseLines(init), ParseLine(last));
    }
  }

  /** Lines that all hold a separator give exactly one message each. */
  lemma {:induction false} ParseLinesAllSeparated(lines: seq<string>)
    requires forall k :: 0 <= k < |lines| ==> HasSep(lines[k])
    ensures |ParseLines(lines)| == |lines|
  {
    if lines != [] {
      ParseLinesAllSeparated(lines[..|lines| - 1]);
      ParseLineSplits(lines[|lines| - 1]);
    }
  }

  /** The full message list: system prompt, parsed history, then the user's message. */
  function RequestMessages(systemPrompt: string, dialogHistory: string, userMessage: string): (r: seq<ChatMessage>)
  {
    [ChatMessage("system", systemPrompt)] + ParseLines(Lines(dialogHistory)) + [ChatMessage("user", userMessage)]
  }

  /**
   * The list starts with the system message, ends with the user message, and
   * in between holds the parsed history, at most one entry per line.
   */
  lemma RequestMessagesShape(systemPrompt: string, dialogHistory: string, userMessage: string)
    ensures var ms := RequestMessages(systemPrompt, dialogHistory, userMessage);
            && 2 <= |ms| <= 2 + |Lines(dialogHistory)|
            && ms[0] == ChatMessage("system", systemPrompt)
            && ms[|ms| - 1] == ChatMessage("user", userMessage)
            && ms[1..|ms| - 1] == ParseLines(Lines(dialogHistory))
  {
    var ms := RequestMessages(systemPrompt, dialogHistory, userMessage);
    assert ms[1..|ms| - 1] == ParseLines(Lines(dialogHistory));
  }

  /** The list-building loop of get_gigachat_response: system message, one append per parsed line, user message. */
  method BuildMessages(systemPrompt: string, dialogHistory: string, userMessage: string) returns (messages: seq<ChatMessage>)
    ensures messages == RequestMessages(systemPrompt, dialogHistory, userMessage)
  {
    messages := [ChatMessage("system", systemPrompt)];
    var lines := Lines(dialogHistory);
    for i := 0 to |lines|
      invariant messages == [ChatMessage("system", systemPrompt)] + ParseLines(lines[..i])
    {
      var line := lines[i];
      TakeOneMore(lines, i);
      AppendAssoc([ChatMessage("system", systemPrompt)], ParseLines(lines[..i]), ParseLine(line));
      match FindSep(line) {
        case Some(j) =>
          messages := messages + [ChatMessage(Lower(line[..j]), line[j + 2..])];
        case None =>
      }
    }
    assert lines[..|lines|] == lines;
    messages := messages + [ChatMessage("user", userMessage)];
  }

  // ---------------------------------------------------------------------
  // get_gigachat_response: the reply
  // ---------------------------------------------------------------------

  /**
   * The text get_gigachat_response returns, given the token step and the
   * completion outcome: a token error comes back unchanged, a failed request
   * and a reply without content give the two fallback texts, and a `KeyError`
   * from the token step propagates.
   */
  function Reply(token: TokenCall, completion: Completion): (r: Raising<string>)
    ensures token.outcome.RaisesKeyError? ==> r == RaisesKeyError(token.outcome.key)
    ensures token.outcome.Returns? && token.outcome.value.error.Some? ==> r == Returns(token.outcome.value.error.value)
    ensures token.outcome.Returns? && token.outcome.value.error.None? ==>
      && r.Returns?
      && (completion.CompletionRequestFailed? ==> r.value == RequestFailedText)
      && (completion == Completed(None) ==> r.value == MalformedReplyText)
      && (completion.Completed? && completion.content.Some? ==> r.value == completion.content.value)
  {
    match token.outcome
    case RaisesKeyError(k) => RaisesKeyError(k)
    case Returns(TokenPair(_, error)) =>
      if error.Some? then Returns(error.value)
      else
        match completion
        case CompletionRequestFailed => Returns(RequestFailedText)
        case Completed(None) => Returns(MalformedReplyText)
        case Completed(Some(content)) => Returns(content)
  }

  predicate StartsWith(s: string, prefix: string)
  {
    |prefix| <= |s| && s[..|prefix|] == prefix
  }

  /**
   * Every failure of the completion step returns one of the two fallback texts,
   * which carry the error marker; the token-step error texts do not.
   */
  lemma FailureTexts(config: Option<string>, exchange: TokenExchange, completion: Completion)
    requires !completion.Completed? || completion.content.None?
    ensures match Reply(GetToken(config, exchange), completion)
            case Returns(text) =>
              || (StartsWith(text, ErrorMarker) && (text == RequestFailedText || text == MalformedReplyText))
              || (!StartsWith(text, ErrorMarker) && (text == CredentialsMissingText || text == AuthFailedText))
            case RaisesKeyError(_) => true
  {
    assert RequestFailedText[..|ErrorMarker|] == ErrorMarker;
    assert MalformedReplyText[..|ErrorMarker|] == ErrorMarker;
    assert ErrorMarker[0] == 'И';
    assert CredentialsMissingText[0] == 'О' && AuthFailedText[0] == 'О';
  }

  /**
   * get_gigachat_response. A fresh token is fetched on every call. The completion
   * request is sent exactly when the token step produced a token, and then it
   * carries that token and the message list; the returned text is `Reply`.
   */
  method GetResponse(systemPrompt: string, dialogHistory: string, userMessage: string,
                     config: Option<string>, exchange: TokenExchange, completion: Completion)
    returns (reply: Raising<string>, sent: Option<CompletionRequest>)
    ensures reply == Reply(GetToken(config, exchange), completion)
    ensures var t := GetToken(config, exchange).outcome;
            sent.Some? <==> t.Returns? && t.value.error.None?
    ensures sent.Some? ==> sent.value == CompletionRequest(GetToken(config, exchange).outcome.value.token.value,
                                                          RequestMessages(systemPrompt, dialogHistory, userMessage))
  {
    var call := GetToken(config, exchange);
    match call.outcome {
      case RaisesKeyError(k) =>
        return RaisesKeyError(k), None;
      case Returns(TokenPair(accessToken, error)) =>
        if error.Some? {
          return Returns(error.value), None;
        }
        var messages := BuildMessages(systemPrompt, dialogHistory, userMessage);
        sent := Some(CompletionRequest(accessToken.value, messages));
        reply := Reply(call, completion);
    }
  }
}
