/**
  The parts of src/services/openai-service.js that decide what `analyzeEmailWithOpenAI`
  returns or throws, and the two key-storage functions.

  The request itself (`fetch` with a 30-second abort timer) is not modelled: its outcome is
  a parameter, either a rejection with a JavaScript error or an HTTP response with a status,
  a status text and a body that `response.json()` either parses or rejects. `navigator.onLine`
  is a parameter too. A thrown error is modelled by the `Err` case of a `Result` carrying
  its message.
 */
module OpenAiService {
  import opened Wrappers
  import opened Text

  // ---------------------------------------------------------------------------
  // Messages
  // ---------------------------------------------------------------------------

  const OFFLINE_MESSAGE := "No internet connection. " + "Please check your network and try again."
  const TIMEOUT_MESSAGE := "Request timed out. " + "The server took too long to respond."
  const MALFORMED_MESSAGE := "Invalid response format " + "from OpenAI API"
  const API_ERROR_PREFIX := "OpenAI API error: "
  const HTTP_ERROR_PREFIX := "HTTP error "

  const NETWORK_MESSAGE := "Network error when connecting to OpenAI. "
                           + "Please check your internet connection and try again."
  const INVALID_KEY_MESSAGE := "Invalid API key. " + "Please check your OpenAI API key and try again."
  const RATE_LIMIT_MESSAGE := "OpenAI API rate limit exceeded. " + "Please try again later."
  const SERVER_ERROR_MESSAGE := "OpenAI server error. " + "Please try again later."
  const FAILURE_PREFIX := "Failed to analyze email: "

  /** The substrings the final classifier looks for, in its order of priority. */
  const FETCH_FAILED := "Failed to fetch"
  const NETWORK_ERROR := "NetworkError"
  const UNAUTHORIZED := "401"
  const TOO_MANY_REQUESTS := "429"
  const SERVER_ERROR := "500"

  /** The four messages that replace a recognised error. */
  const CLASSIFIED: set<string> := {NETWORK_MESSAGE, INVALID_KEY_MESSAGE, RATE_LIMIT_MESSAGE, SERVER_ERROR_MESSAGE}

  // ---------------------------------------------------------------------------
  // The outcome of the request
  // ---------------------------------------------------------------------------

  /** A thrown JavaScript error: its `name` and its `message`. */
  datatype JsError = JsError(name: string, message: string)

  /** The status of a response `fetch` resolves with. */
  type HttpStatus = n: nat | 200 <= n <= 599 witness 200

  /** `response.ok` */
  predicate IsOk(status: HttpStatus) {
    200 <= status <= 299
  }

  /**
    What `await response.json()` gives: a rejection, or the parsed object reduced to the two
    paths the code reads. `errorMessage` is `error?.message`, None when either link is
    missing; `choices` is the `choices` array, None when missing, each element None when
    it is missing or null.
   */
  datatype Body =
    | Unreadable(failure: JsError)
    | Json(errorMessage: Option<string>, choices: Option<seq<Option<Choice>>>)

  /** An element of `choices`: its `message`, None when missing. */
  datatype Choice = Choice(message: Option<ChatMessage>)

  /** `choices[0].message`: its `content`, None when missing. */
  datatype ChatMessage = ChatMessage(content: Option<string>)

  /** How the `fetch` call ended. */
  datatype FetchOutcome =
    | Rejected(failure: JsError)
    | Response(status: HttpStatus, statusText: string, body: Body)

  // ---------------------------------------------------------------------------
  // Building the thrown message
  // ---------------------------------------------------------------------------

  /** `HTTP error ${status}: ${statusText}` */
  function HttpErrorLine(status: HttpStatus, statusText: string): string {
    HTTP_ERROR_PREFIX + Decimal(status) + ": " + statusText
  }

  /**
    The message thrown for a response that is not ok: the HTTP line when the body does not
    parse, and otherwise `OpenAI API error: ` followed by the body's error message or, when
    that is missing or empty, the HTTP line.
   */
  function NotOkMessage(status: HttpStatus, statusText: string, body: Body): (m: string)
    ensures body.Unreadable? ==> m == HttpErrorLine(status, statusText)
    ensures body.Json? ==> StartsWith(m, API_ERROR_PREFIX)
    ensures body.Json? && body.errorMessage.Some? && body.errorMessage.value != []
            ==> m == API_ERROR_PREFIX + body.errorMessage.value
    ensures body.Json? && NoErrorMessage(body) ==> m == API_ERROR_PREFIX + HttpErrorLine(status, statusText)
  {
    var line := HttpErrorLine(status, statusText);
    match body
    case Unreadable(_) => line
    case Json(message, _) =>
      var detail := if message.Some? && message.value != [] then message.value else line;
      assert (API_ERROR_PREFIX + detail)[..|API_ERROR_PREFIX|] == API_ERROR_PREFIX;
      API_ERROR_PREFIX + detail
  }

  /** The content of `choices[0].message.content` when every link exists and the content is not empty. */
  function FirstContent(body: Body): (c: Option<string>)
    ensures c.Some? ==> c.value != []
    ensures c.Some? <==> body.Json? && body.choices.Some? && |body.choices.value| > 0
                         && body.choices.value[0].Some? && body.choices.value[0].value.message.Some?
                         && body.choices.value[0].value.message.value.content.Some?
                         && body.choices.value[0].value.message.value.content.value != []
    ensures c.Some? ==> c.value == body.choices.value[0].value.message.value.content.value
  {
    if body.Unreadable? || body.choices.None? || |body.choices.value| == 0 then None
    else
      var first := body.choices.value[0];
      if first.None? || first.value.message.None? then None
      else
        var content := first.value.message.value.content;
        if content.None? || content.value == [] then None else content
  }

  /** The inner `catch`: an abort becomes the time-out message, any other error passes through. */
  function Rethrown(e: JsError): (m: string)
    ensures e.name == "AbortError" ==> m == TIMEOUT_MESSAGE
    ensures e.name != "AbortError" ==> m == e.message
  {
    if e.name == "AbortError" then TIMEOUT_MESSAGE else e.message
  }

  /**
    The result of the outer `try` block: the trimmed content, or the message of the error
    it throws.
   */
  function Attempt(online: bool, outcome: FetchOutcome): (r: Result<string, string>)
    ensures !online ==> r == Err(OFFLINE_MESSAGE)
    ensures r.Ok? <==> online && outcome.Response? && IsOk(outcome.status) && FirstContent(outcome.body).Some?
    ensures r.Ok? ==> r.value == Trim(FirstContent(outcome.body).value)
    ensures online && outcome.Rejected? ==> r == Err(Rethrown(outcome.failure))
    ensures online && outcome.Response? && !IsOk(outcome.status)
            ==> r == Err(NotOkMessage(outcome.status, outcome.statusText, outcome.body))
    ensures (online && outcome.Response? && IsOk(outcome.status) && outcome.body.Unreadable?)
            ==> r == Err(Rethrown(outcome.body.failure))
    ensures (online && outcome.Response? && IsOk(outcome.status) && outcome.body.Json?
             && FirstContent(outcome.body).None?) ==> r == Err(MALFORMED_MESSAGE)
  {
    if !online then Err(OFFLINE_MESSAGE)
    else
      match outcome
      case Rejected(e) => Err(Rethrown(e))
      case Response(status, statusText, body) =>
        if !IsOk(status) then Err(NotOkMessage(status, statusText, body))
        else if body.Unreadable? then Err(Rethrown(body.failure))
        else
          var content := FirstContent(body);
          if content.None? then Err(MALFORMED_MESSAGE) else Ok(Trim(content.value))
  }

  // ---------------------------------------------------------------------------
  // The final classifier
  // ---------------------------------------------------------------------------

  /** The message contains one of the substrings the classifier recognises. */
  predicate Recognised(m: string) {
    Contains(m, FETCH_FAILED) || Contains(m, NETWORK_ERROR)
    || Contains(m, UNAUTHORIZED) || Contains(m, TOO_MANY_REQUESTS) || Contains(m, SERVER_ERROR)
  }

  /**
    The outer `catch`: the first recognised substring decides the user-facing message; an
    unrecognised message is kept behind `Failed to analyze email: `.
   */
  function UserFacingMessage(m: string): (r: string)
    ensures Recognised(m) ==> r in CLASSIFIED
    ensures Contains(m, FETCH_FAILED) || Contains(m, NETWORK_ERROR) ==> r == NETWORK_MESSAGE
    ensures !Contains(m, FETCH_FAILED) && !Contains(m, NETWORK_ERROR) && Contains(m, UNAUTHORIZED)
            ==> r == INVALID_KEY_MESSAGE
    ensures (!Contains(m, FETCH_FAILED) && !Contains(m, NETWORK_ERROR) && !Contains(m, UNAUTHORIZED)
             && Contains(m, TOO_MANY_REQUESTS)) ==> r == RATE_LIMIT_MESSAGE
    ensures (!Contains(m, FETCH_FAILED) && !Contains(m, NETWORK_ERROR) && !Contains(m, UNAUTHORIZED)
             && !Contains(m, TOO_MANY_REQUESTS) && Contains(m, SERVER_ERROR)) ==> r == SERVER_ERROR_MESSAGE
    ensures !Recognised(m) ==> r == FAILURE_PREFIX + m
  {
    if Contains(m, FETCH_FAILED) || Contains(m, NETWORK_ERROR) then NETWORK_MESSAGE
    else if Contains(m, UNAUTHORIZED) then INVALID_KEY_MESSAGE
    else if Contains(m, TOO_MANY_REQUESTS) then RATE_LIMIT_MESSAGE
    else if Contains(m, SERVER_ERROR) then SERVER_ERROR_MESSAGE
    else FAILURE_PREFIX + m
  }

  /**
    `analyzeEmailWithOpenAI(emailContent, apiKey)`: the trimmed reply, or the user-facing
    message of the error it throws.
   */
  function AnalyzeEmailWithOpenAI(online: bool, outcome: FetchOutcome): (r: Result<string, string>)
    ensures r.Ok? <==> Attempt(online, outcome).Ok?
    ensures r.Ok? ==> r.value == Attempt(online, outcome).value
    ensures r.Err? ==> r.error in CLASSIFIED || r.error == FAILURE_PREFIX + Attempt(online, outcome).error
    ensures r.Err? ==> r.error == UserFacingMessage(Attempt(online, outcome).error)
  {
    match Attempt(online, outcome)
    case Ok(content) => Ok(content)
    case Err(m) => Err(UserFacingMessage(m))
  }

  // ---------------------------------------------------------------------------
  // Properties of the classifier
  // ---------------------------------------------------------------------------

  /**
    A caller can tell a classified message from a passed-through one: only the latter starts
    with `Failed to analyze email: `, and it carries the original message unchanged.
   */
  lemma GenericExactlyWhenUnrecognised(m: string)
    ensures StartsWith(UserFacingMessage(m), FAILURE_PREFIX) <==> !Recognised(m)
    ensures !Recognised(m) ==> UserFacingMessage(m)[|FAILURE_PREFIX|..] == m
  {
    assert NETWORK_MESSAGE[0] != FAILURE_PREFIX[0];
    assert INVALID_KEY_MESSAGE[0] != FAILURE_PREFIX[0];
    assert RATE_LIMIT_MESSAGE[0] != FAILURE_PREFIX[0];
    assert SERVER_ERROR_MESSAGE[0] != FAILURE_PREFIX[0];
    if !Recognised(m) {
      assert (FAILURE_PREFIX + m)[..|FAILURE_PREFIX|] == FAILURE_PREFIX;
    }
  }

  /** The first character of each recognised substring. */
  lemma PatternHeads()
    ensures FETCH_FAILED[0] == 'F' && NETWORK_ERROR[0] == 'N'
    ensures UNAUTHORIZED[0] == '4' && TOO_MANY_REQUESTS[0] == '4' && SERVER_ERROR[0] == '5'
    ensures |FETCH_FAILED| > 1 && |NETWORK_ERROR| > 1 && NETWORK_ERROR[1] == 'e'
    ensures ':' !in FETCH_FAILED && ':' !in NETWORK_ERROR
    ensures ':' !in UNAUTHORIZED && ':' !in TOO_MANY_REQUESTS && ':' !in SERVER_ERROR
  {
  }

  /** A text holding none of `F`, `N`, `4` and `5` is not recognised. */
  lemma UnrecognisedWithoutHeads(m: string)
    requires 'F' !in m && 'N' !in m && '4' !in m && '5' !in m
    ensures !Recognised(m)
  {
    PatternHeads();
    NotContainsForeign(m, FETCH_FAILED);
    NotContainsForeign(m, NETWORK_ERROR);
    NotContainsForeign(m, UNAUTHORIZED);
    NotContainsForeign(m, TOO_MANY_REQUESTS);
    NotContainsForeign(m, SERVER_ERROR);
  }

  /** None of the messages the service builds itself is recognised by the classifier. */
  lemma OwnMessagesUnrecognised()
    ensures !Recognised(OFFLINE_MESSAGE)
    ensures !Recognised(TIMEOUT_MESSAGE)
    ensures !Recognised(MALFORMED_MESSAGE)
  {
    TimeoutUnrecognised();
    MalformedUnrecognised();
    OfflineUnrecognised();
  }

  lemma TimeoutUnrecognised()
    ensures !Recognised(TIMEOUT_MESSAGE)
  {
    TimeoutHeads();
    UnrecognisedWithoutHeads(TIMEOUT_MESSAGE);
  }

  lemma MalformedUnrecognised()
    ensures !Recognised(MALFORMED_MESSAGE)
  {
    MalformedHeads();
    UnrecognisedWithoutHeads(MALFORMED_MESSAGE);
  }

  /** The offline message starts with `N` ("No"), which is not the start of `NetworkError`. */
  lemma OfflineUnrecognised()
    ensures !Recognised(OFFLINE_MESSAGE)
  {
    OfflineHeads();
    OfflineSecondHead();
    PatternHeads();
    NotContainsForeign(OFFLINE_MESSAGE, FETCH_FAILED);
    NotContainsAfterMismatch(OFFLINE_MESSAGE, NETWORK_ERROR);
    NotContainsForeign(OFFLINE_MESSAGE, UNAUTHORIZED);
    NotContainsForeign(OFFLINE_MESSAGE, TOO_MANY_REQUESTS);
    NotContainsForeign(OFFLINE_MESSAGE, SERVER_ERROR);
  }

  /** Which first characters of the recognised substrings the service's own messages hold. */
  lemma TimeoutHeads()
    ensures forall c :: c in TIMEOUT_MESSAGE ==> c != 'F' && c != 'N' && c != '4' && c != '5'
  {
  }

  lemma MalformedHeads()
    ensures forall c :: c in MALFORMED_MESSAGE ==> c != 'F' && c != 'N' && c != '4' && c != '5'
  {
  }

  lemma OfflineHeads()
    ensures forall c :: c in OFFLINE_MESSAGE ==> c != 'F' && c != '4' && c != '5'
  {
  }

  lemma OfflineSecondHead()
    ensures |OFFLINE_MESSAGE| >= 2 && OFFLINE_MESSAGE[1] == 'o' && forall c :: c in OFFLINE_MESSAGE[1..] ==> c != 'N'
  {
  }

  /** Offline, no request is made and the caller sees the offline message behind the generic prefix. */
  lemma OfflineMessage(outcome: FetchOutcome)
    ensures AnalyzeEmailWithOpenAI(false, outcome) == Err(FAILURE_PREFIX + OFFLINE_MESSAGE)
  {
    OwnMessagesUnrecognised();
  }

  /**
    An aborted request ends in the time-out message behind the generic prefix. The timer is
    cleared as soon as `fetch` settles, so an aborted read of the reply does not happen; the
    second requires covers it only because `Body` can express it.
   */
  lemma TimeoutMessage(outcome: FetchOutcome)
    requires outcome.Rejected? ==> outcome.failure.name == "AbortError"
    requires outcome.Response? ==> IsOk(outcome.status) && outcome.body.Unreadable? && outcome.body.failure.name == "AbortError"
    ensures AnalyzeEmailWithOpenAI(true, outcome) == Err(FAILURE_PREFIX + TIMEOUT_MESSAGE)
  {
    OwnMessagesUnrecognised();
  }

  /** A reply that parses but lacks content ends in the format message behind the generic prefix. */
  lemma MalformedReply(status: HttpStatus, statusText: string, body: Body)
    requires IsOk(status) && body.Json? && FirstContent(body).None?
    ensures AnalyzeEmailWithOpenAI(true, Response(status, statusText, body)) == Err(FAILURE_PREFIX + MALFORMED_MESSAGE)
  {
    OwnMessagesUnrecognised();
  }

  /** A browser's network failure (`TypeError: Failed to fetch`) becomes the network message. */
  lemma FetchFailureIsNetworkError(e: JsError)
    requires e.name != "AbortError" && (Contains(e.message, FETCH_FAILED) || Contains(e.message, NETWORK_ERROR))
    ensures AnalyzeEmailWithOpenAI(true, Rejected(e)) == Err(NETWORK_MESSAGE)
  {
  }

  /** On success the reply is the first choice's content with the surrounding white space removed. */
  lemma SuccessIsTrimmedContent(status: HttpStatus, statusText: string, body: Body)
    requires IsOk(status) && FirstContent(body).Some?
    ensures var r := AnalyzeEmailWithOpenAI(true, Response(status, statusText, body));
            r.Ok? && (r.value == [] || (!IsJsSpace(r.value[0]) && !IsJsSpace(r.value[|r.value| - 1])))
            && exists k: nat :: SurroundedBySpace(FirstContent(body).value, r.value, k)
  {
  }

  // ---------------------------------------------------------------------------
  // Which status codes the classifier sees
  // ---------------------------------------------------------------------------

  /** The classifier's substrings. */
  predicate IsPattern(p: string) {
    p == FETCH_FAILED || p == NETWORK_ERROR || p == UNAUTHORIZED || p == TOO_MANY_REQUESTS || p == SERVER_ERROR
  }

  /**
    A recognised substring occurs in an HTTP error line exactly when it is the status code
    itself or occurs in the status text: the fixed parts of the line hold none of them and
    the `: ` between code and text keeps an occurrence from straddling the two.
   */
  lemma {:induction false} HttpLineContains(status: HttpStatus, statusText: string, p: string)
    requires IsPattern(p)
    ensures Contains(HttpErrorLine(status, statusText), p)
            <==> (IsDigit(p[0]) && Decimal(status) == p) || Contains(statusText, p)
  {
    PatternHeads();
    var code := Decimal(status);
    assert HttpErrorLine(status, statusText) == (HTTP_ERROR_PREFIX + code) + (": " + statusText);
    ContainsAroundBreak(HTTP_ERROR_PREFIX + code, ": " + statusText, p);
    ContainsAfterForeignPrefix(": ", statusText, p);
    assert p[0] !in HTTP_ERROR_PREFIX;
    ContainsAfterForeignPrefix(HTTP_ERROR_PREFIX, code, p);
    if IsDigit(p[0]) {
      DecimalThreeDigits(status);
      ContainsSameLength(code, p);
    } else {
      assert p[0] !in code;
      NotContainsForeign(code, p);
    }
  }

  /** The prefix `OpenAI API error: ` hides no recognised substring. */
  lemma ApiErrorPrefixContains(m: string, p: string)
    requires IsPattern(p)
    ensures Contains(API_ERROR_PREFIX + m, p) <==> Contains(m, p)
  {
    PatternHeads();
    assert p[0] !in API_ERROR_PREFIX;
    ContainsAfterForeignPrefix(API_ERROR_PREFIX, m, p);
  }

  /** The three codes the classifier recognises, and their numerals. */
  lemma CodeNumerals(status: HttpStatus)
    ensures Decimal(status) == UNAUTHORIZED <==> status == 401
    ensures Decimal(status) == TOO_MANY_REQUESTS <==> status == 429
    ensures Decimal(status) == SERVER_ERROR <==> status == 500
  {
    CodeDecimals();
    if Decimal(status) == UNAUTHORIZED { DecimalInjective(status, 401); }
    if Decimal(status) == TOO_MANY_REQUESTS { DecimalInjective(status, 429); }
    if Decimal(status) == SERVER_ERROR { DecimalInjective(status, 500); }
  }

  lemma CodeDecimals()
    ensures Decimal(401) == UNAUTHORIZED && Decimal(429) == TOO_MANY_REQUESTS && Decimal(500) == SERVER_ERROR
  {
    assert Decimal(4) == "4" && Decimal(40) == "40" && Decimal(42) == "42";
    assert Decimal(5) == "5" && Decimal(50) == "50";
  }

  /** The body of an error reply carries no usable `error.message`. */
  predicate NoErrorMessage(body: Body) {
    body.Unreadable? || body.errorMessage.None? || body.errorMessage.value == []
  }

  /** Whether the status code survives into a message that the classifier then reads. */
  lemma {:induction false} NotOkRecognised(status: HttpStatus, statusText: string, body: Body, p: string)
    requires NoErrorMessage(body) && IsPattern(p)
    ensures Contains(NotOkMessage(status, statusText, body), p)
            <==> (IsDigit(p[0]) && Decimal(status) == p) || Contains(statusText, p)
  {
    HttpLineContains(status, statusText, p);
    if body.Json? {
      ApiErrorPrefixContains(HttpErrorLine(status, statusText), p);
    }
  }

  /**
    An error reply without an error message is classified by its status alone (when its
    status text holds no recognised substring): 401, 429 and 500 get their own messages,
    and every other status, 502 and 503 included, gets the generic one.
   */
  lemma {:induction false} ClassifyByStatus(status: HttpStatus, statusText: string, body: Body)
    requires !IsOk(status) && NoErrorMessage(body) && !Recognised(statusText)
    ensures var r := AnalyzeEmailWithOpenAI(true, Response(status, statusText, body));
            r == Err(if status == 401 then INVALID_KEY_MESSAGE
                     else if status == 429 then RATE_LIMIT_MESSAGE
                     else if status == 500 then SERVER_ERROR_MESSAGE
                     else FAILURE_PREFIX + NotOkMessage(status, statusText, body))
  {
    PatternHeads();
    CodeNumerals(status);
    NotOkRecognised(status, statusText, body, FETCH_FAILED);
    NotOkRecognised(status, statusText, body, NETWORK_ERROR);
    NotOkRecognised(status, statusText, body, UNAUTHORIZED);
    NotOkRecognised(status, statusText, body, TOO_MANY_REQUESTS);
    NotOkRecognised(status, statusText, body, SERVER_ERROR);
  }

  /**
    An error reply whose body carries an error message is classified by that message alone:
    the status code no longer appears in what the classifier reads.
   */
  lemma {:induction false} JsonMessageHidesStatus(status: HttpStatus, statusText: string, message: string,
                                                  choices: Option<seq<Option<Choice>>>)
    requires !IsOk(status) && message != []
    ensures AnalyzeEmailWithOpenAI(true, Response(status, statusText, Json(Some(message), choices)))
            == Err(UserFacingMessage(API_ERROR_PREFIX + message))
    ensures UserFacingMessage(API_ERROR_PREFIX + message)
            == if Recognised(message) then UserFacingMessage(message) else FAILURE_PREFIX + API_ERROR_PREFIX + message
  {
    ApiErrorPrefixContains(message, FETCH_FAILED);
    ApiErrorPrefixContains(message, NETWORK_ERROR);
    ApiErrorPrefixContains(message, UNAUTHORIZED);
    ApiErrorPrefixContains(message, TOO_MANY_REQUESTS);
    ApiErrorPrefixContains(message, SERVER_ERROR);
  }

  // ---------------------------------------------------------------------------
  // Key storage
  // ---------------------------------------------------------------------------

  const API_KEY_ITEM := "openai_api_key"
  const TEST_ITEM := "_test_localStorage_"
  const TEST_VALUE := "test"

  /**
    Whether the page can reach `localStorage`: not defined at all, defined but throwing on
    access (storage blocked by the browser), or usable.
   */
  datatype Access = Undefined | Denied | Available

  /**
    What writes do: they are stored, they throw (storage disabled), or they are silently
    dropped, the case the read-back test is there to catch.
   */
  datatype WriteBehaviour = Persists | Throws | Discards

  /**
    The page's `localStorage`, a map from item names to string values. A storage whose writes
    persist has a `quota`: a value longer than that throws (`QuotaExceededError`), so a short
    test value can fit where a long key does not.
   */
  class LocalStorage {
    const access: Access
    const writes: WriteBehaviour
    const quota: nat
    var items: map<string, string>

    constructor (access: Access, writes: WriteBehaviour, quota: nat, items: map<string, string>)
      ensures this.access == access && this.writes == writes && this.quota == quota && this.items == items
    {
      this.access := access;
      this.writes := writes;
      this.quota := quota;
      this.items := items;
    }

    /** Writing `value` stores it. */
    predicate Accepts(value: string) {
      writes == Persists && |value| <= quota
    }

    /** Writing `value` throws. */
    predicate Rejects(value: string) {
      writes == Throws || (writes == Persists && |value| > quota)
    }

    /** `getItem(key)`: null (None) for an absent item. */
    function GetItem(key: string): (v: Option<string>)
      requires access == Available
      reads this
      ensures v.Some? <==> key in items
      ensures v.Some? ==> v.value == items[key]
    {
      if key in items then Some(items[key]) else None
    }

    /** `setItem(key, value)`: `threw` reports an exception. */
    method SetItem(key: string, value: string) returns (threw: bool)
      requires access == Available
      modifies this
      ensures threw <==> Rejects(value)
      ensures items == if Accepts(value) then old(items)[key := value] else old(items)
    {
      threw := Rejects(value);
      if Accepts(value) {
        items := items[key := value];
      }
    }

    /** `removeItem(key)` */
    method RemoveItem(key: string)
      requires access == Available
      modifies this
      ensures items == if writes == Persists then old(items) - {key} else old(items)
    {
      if writes == Persists {
        items := items - {key};
      }
    }
  }

  /** The items after a successful `storeApiKey`: the test item gone, the key stored. */
  function ItemsAfterStore(items: map<string, string>, apiKey: string): map<string, string> {
    (items - {TEST_ITEM})[API_KEY_ITEM := apiKey]
  }

  /**
    A successful store leaves exactly one change behind besides the removed test item: the
    key under `openai_api_key`.
   */
  lemma ItemsAfterStoreChanges(items: map<string, string>, apiKey: string)
    ensures API_KEY_ITEM in ItemsAfterStore(items, apiKey) && ItemsAfterStore(items, apiKey)[API_KEY_ITEM] == apiKey
    ensures TEST_ITEM !in ItemsAfterStore(items, apiKey)
    ensures forall k :: k != API_KEY_ITEM && k != TEST_ITEM ==>
              (k in ItemsAfterStore(items, apiKey) <==> k in items)
    ensures forall k :: k != API_KEY_ITEM && k != TEST_ITEM && k in items ==>
              ItemsAfterStore(items, apiKey)[k] == items[k]
  {
    assert API_KEY_ITEM != TEST_ITEM;
  }

  /**
    The items `storeApiKey` leaves behind: untouched unless the test write is stored; then the
    test item is gone, and the key is stored when the storage takes it.
   */
  function ItemsAfterAttempt(storage: LocalStorage, items: map<string, string>, apiKey: string): map<string, string> {
    if storage.access != Available || !storage.Accepts(TEST_VALUE) then items
    else if storage.Accepts(apiKey) then ItemsAfterStore(items, apiKey)
    else items - {TEST_ITEM}
  }

  /**
    `storeApiKey(apiKey)`: write a test item, read it back, remove it, then write the key.
    Every failure, the key write throwing included, is reported as `false`.
   */
  method StoreApiKey(storage: LocalStorage, apiKey: string) returns (stored: bool)
    modifies storage
    ensures stored <==> storage.access == Available
                        && (storage.Accepts(TEST_VALUE)
                            || (storage.writes == Discards && TEST_ITEM in old(storage.items)
                                && old(storage.items)[TEST_ITEM] == TEST_VALUE))
                        && !storage.Rejects(apiKey)
    ensures storage.items == ItemsAfterAttempt(storage, old(storage.items), apiKey)
  {
    if storage.access != Available {
      // `typeof localStorage` is 'undefined', or touching it throws.
      return false;
    }
    var threw := storage.SetItem(TEST_ITEM, TEST_VALUE);
    if threw {
      return false;
    }
    if storage.GetItem(TEST_ITEM) != Some(TEST_VALUE) {
      return false;
    }
    storage.RemoveItem(TEST_ITEM);
    threw := storage.SetItem(API_KEY_ITEM, apiKey);
    stored := !threw;
    assert storage.Accepts(apiKey) ==> storage.items == ItemsAfterStore(old(storage.items), apiKey);
  }

  /** `getApiKey()`: the stored key, or null (None) when storage is unusable or the key is absent. */
  function GetApiKey(storage: LocalStorage): (key: Option<string>)
    reads storage
    ensures key.Some? <==> storage.access == Available && API_KEY_ITEM in storage.items
    ensures key.Some? ==> key.value == storage.items[API_KEY_ITEM]
  {
    if storage.access != Available then None else storage.GetItem(API_KEY_ITEM)
  }

  /** A storage whose writes persist gives back, through `getApiKey`, the key last stored. */
  lemma GetAfterStore(storage: LocalStorage, items: map<string, string>, apiKey: string)
    requires storage.access == Available && storage.items == ItemsAfterStore(items, apiKey)
    ensures GetApiKey(storage) == Some(apiKey)
  {
    ItemsAfterStoreChanges(items, apiKey);
  }

  /**
    A successful result does not guarantee a stored key: `storeApiKey` on a storage that
    drops writes but still holds an old test item reading `test` reports success, and
    `getApiKey` afterwards finds no key.
   */
  method StaleTestItemFoolsCheck(apiKey: string) returns (stored: bool, key: Option<string>)
    ensures stored && key == None
  {
    var storage := new LocalStorage(Available, Discards, 0, map[TEST_ITEM := TEST_VALUE]);
    stored := StoreApiKey(storage, apiKey);
    assert API_KEY_ITEM != TEST_ITEM;
    key := GetApiKey(storage);
  }

  /**
    A key too long for the quota: the test value fits, so the check passes, then writing the
    key throws and `storeApiKey` reports `false`; no key is stored and the test item is gone.
   */
  method OversizedKeyNotStored(apiKey: string) returns (stored: bool, key: Option<string>, left: map<string, string>)
    requires |apiKey| > |TEST_VALUE|
    ensures !stored && key == None && left == map[]
  {
    var storage := new LocalStorage(Available, Persists, |TEST_VALUE|, map[]);
    stored := StoreApiKey(storage, apiKey);
    key := GetApiKey(storage);
    left := storage.items;
  }
}
