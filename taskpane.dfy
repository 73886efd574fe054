/**
  The logic of src/taskpane/taskpane.js that does not touch the page: the text sent for
  analysis, built from the headers and body of the open mail item; the choice of the API
  key, from local storage or from a prompt; and `callOpenAIAPI`, which rewrites every date
  range and then every single date of the reply with its weekday.
 */
module Taskpane {
  import opened Wrappers
  import opened Text
  import opened Utilities
  import opened DateScan
  import opened OpenAiService

  // ---------------------------------------------------------------------------
  // The text sent for analysis
  // ---------------------------------------------------------------------------

  /** A sender or recipient of the mail item: only its address is read. */
  datatype EmailAddressDetails = EmailAddressDetails(emailAddress: string)

  /** The fields of the open mail item that are read; None for a missing sender or list. */
  datatype MailItem = MailItem(
    subject: string,
    from: Option<EmailAddressDetails>,
    to: Option<seq<EmailAddressDetails>>,
    cc: Option<seq<EmailAddressDetails>>)

  /** The object `getEmailHeaders` returns. */
  datatype Headers = Headers(subject: string, from: string, to: string, cc: string)

  /** `recipients.map(recipient => recipient.emailAddress)` */
  function AddressList(recipients: seq<EmailAddressDetails>): (addresses: seq<string>)
    ensures |addresses| == |recipients|
    ensures forall i :: 0 <= i < |recipients| ==> addresses[i] == recipients[i].emailAddress
    decreases |recipients|
  {
    if recipients == [] then []
    else [recipients[0].emailAddress] + AddressList(recipients[1..])
  }

  /** The addresses of a recipient list, joined with `"; "`; a missing list gives `""`. */
  function Addresses(recipients: Option<seq<EmailAddressDetails>>): string {
    if recipients.Some? then Join(AddressList(recipients.value), "; ") else ""
  }

  /** `getEmailHeaders(item)` */
  function GetEmailHeaders(item: MailItem): (h: Headers)
    ensures h.subject == item.subject
    ensures item.from.None? ==> h.from == ""
    ensures item.from.Some? ==> h.from == item.from.value.emailAddress
    ensures item.to.None? ==> h.to == ""
    ensures item.to.Some? ==> h.to == Join(AddressList(item.to.value), "; ")
    ensures item.cc.None? ==> h.cc == ""
    ensures item.cc.Some? ==> h.cc == Join(AddressList(item.cc.value), "; ")
  {
    Headers(
      item.subject,
      if item.from.Some? then item.from.value.emailAddress else "",
      Addresses(item.to),
      Addresses(item.cc))
  }

  /**
    The joined list has one separator between each two addresses: when no address holds a
    semicolon, counting the semicolons counts the recipients.
   */
  lemma {:induction false} AddressesCount(addresses: seq<string>)
    requires addresses != []
    requires forall i :: 0 <= i < |addresses| ==> ';' !in addresses[i]
    ensures Count(Join(addresses, "; "), ';') == |addresses| - 1
    decreases |addresses|
  {
    if |addresses| == 1 {
      assert Join(addresses, "; ") == addresses[0];
    } else {
      var rest := Join(addresses[1..], "; ");
      AddressesCount(addresses[1..]);
      assert Join(addresses, "; ") == addresses[0] + [';'] + ([' '] + rest);
      CountSplit(addresses[0], ';', [' '] + rest);
      assert ([' '] + rest)[1..] == rest;
    }
  }

  /** The number of `To` or `CC` recipients can be read back from the header text. */
  lemma RecipientCount(recipients: seq<EmailAddressDetails>)
    requires recipients != []
    requires forall i :: 0 <= i < |recipients| ==> ';' !in recipients[i].emailAddress
    ensures Count(Addresses(Some(recipients)), ';') == |recipients| - 1
  {
    AddressesCount(AddressList(recipients));
  }

  /**
    The content of line 37 of taskpane.js: the four labelled header lines, an empty line and
    the body, one after the other with a line break between each two.
   */
  function EmailContent(headers: Headers, body: string): string {
    Join(["Subject: " + headers.subject, "From: " + headers.from, "To: " + headers.to,
          "CC: " + headers.cc, "", body], "\n")
  }

  /** No header field spans lines. */
  predicate SingleLineHeaders(h: Headers) {
    '\n' !in h.subject && '\n' !in h.from && '\n' !in h.to && '\n' !in h.cc
  }

  /**
    The content reads back line by line: the four headers, each behind its label, an empty
    line, and then the lines of the body.
   */
  lemma EmailContentLines(h: Headers, body: string)
    requires SingleLineHeaders(h)
    ensures Split(EmailContent(h, body), '\n')
            == ["Subject: " + h.subject, "From: " + h.from, "To: " + h.to, "CC: " + h.cc, ""]
               + Split(body, '\n')
  {
    LabelsAreSingleLines();
    var lines := ["Subject: " + h.subject, "From: " + h.from, "To: " + h.to, "CC: " + h.cc, ""];
    assert lines + [body] == ["Subject: " + h.subject, "From: " + h.from, "To: " + h.to,
                              "CC: " + h.cc, "", body];
    SplitJoinedLines(lines, body, '\n');
  }

  /** The four labels hold no line break. */
  lemma LabelsAreSingleLines()
    ensures forall name, field :: name in {"Subject: ", "From: ", "To: ", "CC: "} && '\n' !in field
              ==> '\n' !in name + field
  {
    assert forall ch :: ch in "Subject: " ==> ch != '\n';
  }

  /** The body is the end of the content, unchanged. */
  lemma EmailContentEndsWithBody(h: Headers, body: string)
    ensures var content := EmailContent(h, body);
            |content| >= |body| && content[|content| - |body|..] == body
  {
    var head := ["Subject: " + h.subject, "From: " + h.from, "To: " + h.to, "CC: " + h.cc, ""];
    assert head + [body] == ["Subject: " + h.subject, "From: " + h.from, "To: " + h.to,
                             "CC: " + h.cc, "", body];
    JoinLast(head, body, "\n");
  }

  // ---------------------------------------------------------------------------
  // The API key
  // ---------------------------------------------------------------------------

  const INVALID_FORMAT_MESSAGE := "Invalid API key format. " + "Please enter a valid OpenAI API key."

  /**
    `Office.context.roamingSettings`: `present` says whether the host offers it; writes go to
    a map from names to values.
   */
  class RoamingSettings {
    const present: bool
    var items: map<string, string>

    constructor (present: bool, items: map<string, string>)
      ensures this.present == present && this.items == items
    {
      this.present := present;
      this.items := items;
    }
  }

  /** `storeInRoamingSettings(key, value)`: a write when the host offers roaming settings. */
  method StoreInRoamingSettings(roaming: RoamingSettings, key: string, value: string)
    modifies roaming
    ensures roaming.items == if roaming.present then old(roaming.items)[key := value] else old(roaming.items)
  {
    if roaming.present {
      roaming.items := roaming.items[key := value];
    }
  }

  /** JavaScript truthiness of a stored key: null and the empty string are false. */
  predicate Truthy(key: Option<string>) {
    key.Some? && key.value != ""
  }

  /**
    The key `getOrPromptForApiKey` settles on, given what `getApiKey()` found and what the
    prompt would answer (None for a cancelled prompt).
   */
  function KeyChoice(saved: Option<string>, answer: Option<string>): (r: Result<string, string>)
    ensures Truthy(saved) ==> r == Ok(saved.value)
    ensures !Truthy(saved) ==> (r.Ok? <==> IsValidApiKeyFormat(answer))
    ensures !Truthy(saved) && r.Ok? ==> Some(r.value) == answer
    ensures r.Err? ==> r.error == INVALID_FORMAT_MESSAGE
  {
    if Truthy(saved) then Ok(saved.value)
    else if !IsValidApiKeyFormat(answer) then Err(INVALID_FORMAT_MESSAGE)
    else Ok(answer.value)
  }

  /**
    A key the user types is checked before it is used; a saved one is used as it is, so a
    saved key of the wrong format still gets through.
   */
  lemma KeyChoiceChecksOnlyPrompted(saved: Option<string>, answer: Option<string>)
    ensures KeyChoice(saved, answer).Ok? ==>
              KeyChoice(saved, answer).value != ""
              && (IsValidApiKeyFormat(Some(KeyChoice(saved, answer).value)) || Some(KeyChoice(saved, answer).value) == saved)
    ensures KeyChoice(Some("abc"), answer) == Ok("abc")
  {
  }

  /**
    `getOrPromptForApiKey()`: the key found in local storage when there is one; otherwise the
    prompted key, which must pass the format check and is then written to local storage and
    to the roaming settings, whatever those writes report. The roaming settings are never read.
   */
  method GetOrPromptForApiKey(local: LocalStorage, roaming: RoamingSettings, answer: Option<string>)
    returns (r: Result<string, string>)
    modifies local, roaming
    ensures r == KeyChoice(old(GetApiKey(local)), answer)
    ensures Truthy(old(GetApiKey(local))) || !IsValidApiKeyFormat(answer) ==>
              local.items == old(local.items) && roaming.items == old(roaming.items)
    ensures !Truthy(old(GetApiKey(local))) && IsValidApiKeyFormat(answer) ==>
              local.items == ItemsAfterAttempt(local, old(local.items), answer.value)
              && roaming.items == (if roaming.present then old(roaming.items)[API_KEY_ITEM := answer.value]
                                   else old(roaming.items))
    ensures (r.Ok? && local.access == Available && local.Accepts(TEST_VALUE) && local.Accepts(r.value))
            ==> GetApiKey(local) == Some(r.value)
  {
    var apiKey := GetApiKey(local);
    if !Truthy(apiKey) {
      apiKey := answer;
      if !IsValidApiKeyFormat(apiKey) {
        return Err(INVALID_FORMAT_MESSAGE);
      }
      var _ := StoreApiKey(local, apiKey.value);
      StoreInRoamingSettings(roaming, API_KEY_ITEM, apiKey.value);
      if local.access == Available && local.Accepts(TEST_VALUE) && local.Accepts(apiKey.value) {
        GetAfterStore(local, old(local.items), apiKey.value);
      }
    }
    return Ok(apiKey.value);
  }

  // ---------------------------------------------------------------------------
  // Rewriting the dates of the reply
  // ---------------------------------------------------------------------------

  /**
    The message of the ReferenceError raised by a call through a name that is not bound, in
    the wording of the V8 engine (Edge and Chrome); other engines word it differently.
   */
  const NOT_DEFINED_MESSAGE := "formatDateWithWeekday " + "is not defined"

  /** The first pass: every date range of the reply, annotated by `formatDateRangeWithWeekdays`. */
  function RangePass(reply: string): string {
    Replaced(Matching(DateRange), reply, FormatDateRangeWithWeekdays)
  }

  /**
    Both passes of `callOpenAIAPI`, the second calling whatever the name
    `formatDateWithWeekday` is bound to in taskpane.js: `formatter`, or None when the name
    is unbound. An unbound name fails only when it is called, that is when the text after
    the first pass still holds a date.
   */
  function TwoPasses(reply: string, formatter: Option<string -> string>): (r: Result<string, string>)
    ensures r.Err? <==> formatter.None? && HasMatch(Matching(SingleDate), RangePass(reply))
    ensures r.Err? ==> r.error == NOT_DEFINED_MESSAGE
  {
    var ranged := RangePass(reply);
    if formatter.Some? then Ok(Replaced(Matching(SingleDate), ranged, formatter.value))
    else if HasMatch(Matching(SingleDate), ranged) then Err(NOT_DEFINED_MESSAGE)
    else Ok(ranged)
  }

  /** A reply without a date comes back unchanged from both passes, whatever the second calls. */
  lemma TwoPassesWithoutDates(reply: string, formatter: Option<string -> string>)
    requires !HasMatch(Matching(SingleDate), reply)
    ensures TwoPasses(reply, formatter) == Ok(reply)
  {
    RangePassWithoutDates(reply);
    if formatter.Some? {
      NoMatchUnchanged(Matching(SingleDate), reply, formatter.value);
    }
  }

  /** A reply without a date comes back unchanged from the range pass. */
  lemma RangePassWithoutDates(reply: string)
    requires !HasMatch(Matching(SingleDate), reply)
    ensures RangePass(reply) == reply
  {
    NoDateNoMatch(DateRange, reply);
    NoMatchUnchanged(Matching(DateRange), reply, FormatDateRangeWithWeekdays);
  }

  /**
    As shipped, taskpane.js does not import `formatDateWithWeekday`: the rewrite fails exactly
    for the replies that hold a date.
   */
  lemma ShippedRewriteFailsOnDates(reply: string)
    ensures TwoPasses(reply, None).Err? <==> HasMatch(Matching(SingleDate), reply)
  {
    RangePassKeepsDates(reply);
  }

  /** The range pass leaves a date in a reply exactly when the reply holds one. */
  lemma RangePassKeepsDates(reply: string)
    ensures HasMatch(Matching(SingleDate), RangePass(reply)) <==> HasMatch(Matching(SingleDate), reply)
  {
    if HasMatch(Matching(SingleDate), reply) {
      RangePassKeepsADate(reply);
    } else {
      RangePassWithoutDates(reply);
    }
  }

  /** The range pass never removes the last date: a formatted range still starts with its first date. */
  lemma {:induction false} RangePassKeepsADate(t: string)
    requires HasMatch(Matching(SingleDate), t)
    ensures HasMatch(Matching(SingleDate), RangePass(t))
    decreases |t|
  {
    if Matching(DateRange)(t).Some? {
      RangePassAtRange(t);
    } else {
      RangePassCopies(t);
      if HasMatch(Matching(SingleDate), t[1..]) {
        RangePassKeepsADate(t[1..]);
        HasMatchAfter(Matching(SingleDate), t[0], RangePass(t[1..]));
      } else {
        RangePassOfDateOnly(t);
      }
    }
  }

  /** Where a range starts, the range pass puts a formatted range, which starts with a date. */
  lemma RangePassAtRange(t: string)
    requires Matching(DateRange)(t).Some?
    ensures HasMatch(Matching(SingleDate), RangePass(t))
  {
    var a, b := RangeMatchParts(t);
    var n := Matching(DateRange)(t).value;
    assert RangePass(t) == FormatDateRangeWithWeekdays(a + "-" + b) + RangePass(t[n..]);
    FormattedRangeStartsWithDate(a, b, RangePass(t[n..]));
  }

  /** Where no range starts, the range pass copies the character. */
  lemma RangePassCopies(t: string)
    requires t != [] && Matching(DateRange)(t).None?
    ensures RangePass(t) == [t[0]] + RangePass(t[1..])
  {
  }

  /** A text with a date at its front and none after gets through the range pass unchanged. */
  lemma RangePassOfDateOnly(t: string)
    requires t != [] && Matching(DateRange)(t).None?
    requires HasMatch(Matching(SingleDate), t) && !HasMatch(Matching(SingleDate), t[1..])
    ensures HasMatch(Matching(SingleDate), RangePass(t))
  {
    RangePassCopies(t);
    NoDateNoMatch(DateRange, t[1..]);
    NoMatchUnchanged(Matching(DateRange), t[1..], FormatDateRangeWithWeekdays);
    assert [t[0]] + t[1..] == t;
  }

  /** A formatted range, whatever follows it, starts with a date. */
  lemma FormattedRangeStartsWithDate(a: string, b: string, rest: string)
    requires IsDate(a) && IsDate(b)
    ensures HasMatch(Matching(SingleDate), FormatDateRangeWithWeekdays(a + "-" + b) + rest)
  {
    FormattedRange(a, b);
    var A, Fb := FormatDateWithWeekday(a)[|a|..], FormatDateWithWeekday(b);
    var m := (A + "-") + Fb;
    Regroup(a, A, "-", Fb);
    AppendAssoc(a, m, rest);
    HasMatchOfDate(a, m + rest);
  }

  /** A date is annotated: the date itself, then one of the annotations. */
  lemma FormattedDate(a: string)
    requires IsDate(a)
    ensures var A := FormatDateWithWeekday(a)[|a|..];
            A in ANNOTATIONS && FormatDateWithWeekday(a) == a + A
  {
    DateHasTwoDots(a);
    var r := FormatDateWithWeekday(a);
    assert r == r[..|a|] + r[|a|..];
  }

  /** A range of two dates is formatted half by half. */
  lemma FormattedRange(a: string, b: string)
    requires IsDate(a) && IsDate(b)
    ensures var A := FormatDateWithWeekday(a)[|a|..];
            A in ANNOTATIONS
            && FormatDateRangeWithWeekdays(a + "-" + b) == a + A + "-" + FormatDateWithWeekday(b)
  {
    DateHasTwoDots(a);
    DateHasTwoDots(b);
    FormatRangeHalves(a, b);
    FormattedDate(a);
  }

  /** No annotation holds a digit, so no match starts inside one. */
  lemma AnnotationHasNoDigits(x: string)
    requires x in ANNOTATIONS
    ensures forall k :: 0 <= k < |x| ==> !IsDigit(x[k])
  {
  }

  /** An annotation and a hyphen hold no digit. */
  lemma AnnotationAndHyphen(x: string)
    requires x in ANNOTATIONS
    ensures forall k :: 0 <= k < |x + "-"| ==> !IsDigit((x + "-")[k])
  {
    AnnotationHasNoDigits(x);
  }

  /**
    The single-date pass over a date followed by text without digits: the date is replaced,
    the text is copied, and the scan goes on after it.
   */
  lemma DatePassOverAnnotated(a: string, x: string, rest: string, g: string -> string)
    requires IsDate(a)
    requires forall k :: 0 <= k < |x| ==> !IsDigit(x[k])
    ensures Replaced(Matching(SingleDate), a + (x + rest), g) == g(a) + (x + Replaced(Matching(SingleDate), rest, g))
  {
    ReplaceDate(a, x + rest, g);
    MatchingDigitLed(SingleDate);
    SkipNonDigits(Matching(SingleDate), x, rest, g);
  }

  /** The range pass over a range of two dates alone. */
  lemma RangePassOfRange(a: string, b: string)
    requires IsDate(a) && IsDate(b)
    ensures var A, B := FormatDateWithWeekday(a)[|a|..], FormatDateWithWeekday(b)[|b|..];
            A in ANNOTATIONS && B in ANNOTATIONS
            && RangePass(a + "-" + b) == a + A + "-" + (b + B)
  {
    ReplaceRange(DateRange, a, b, "", FormatDateRangeWithWeekdays);
    assert a + "-" + b + "" == a + "-" + b;
    FormattedRange(a, b);
    FormattedDate(b);
  }

  /**
    With `formatDateWithWeekday` in scope, the single-date pass finds the two dates of every
    range the first pass has annotated and annotates each of them a second time.
   */
  lemma TwoPassesAnnotateRangeTwice(a: string, b: string)
    requires IsDate(a) && IsDate(b)
    ensures var A, B := FormatDateWithWeekday(a)[|a|..], FormatDateWithWeekday(b)[|b|..];
            TwoPasses(a + "-" + b, Some(FormatDateWithWeekday)) == Ok(a + A + A + "-" + (b + B + B))
  {
    var A, B := FormatDateWithWeekday(a)[|a|..], FormatDateWithWeekday(b)[|b|..];
    RangePassOfRange(a, b);
    FormattedDate(a);
    FormattedDate(b);
    var second := SecondPassOverRange(a, A, b, B);
    assert TwoPasses(a + "-" + b, Some(FormatDateWithWeekday)) == Ok(second);
  }

  /** The single-date pass over a range whose halves carry annotations `A` and `B`. */
  lemma SecondPassOverRange(a: string, A: string, b: string, B: string) returns (r: string)
    requires IsDate(a) && IsDate(b) && A in ANNOTATIONS && B in ANNOTATIONS
    requires FormatDateWithWeekday(a) == a + A && FormatDateWithWeekday(b) == b + B
    ensures r == Replaced(Matching(SingleDate), a + A + "-" + (b + B), FormatDateWithWeekday)
    ensures r == a + A + A + "-" + (b + B + B)
  {
    var F := FormatDateWithWeekday;
    AnnotationAndHyphen(A);
    Regroup(a, A, "-", b + B);
    DatePassOverAnnotated(a, A + "-", b + B, F);
    SecondPassOverDate(b, B);
    r := F(a) + ((A + "-") + (F(b) + B));
    Regroup(a + A, A, "-", b + B + B);
  }

  /** The date pass over an annotated date alone annotates it once more. */
  lemma SecondPassOverDate(b: string, B: string)
    requires IsDate(b) && B in ANNOTATIONS
    ensures Replaced(Matching(SingleDate), b + B, FormatDateWithWeekday) == FormatDateWithWeekday(b) + B
  {
    AnnotationHasNoDigits(B);
    assert B + "" == B;
    DatePassOverAnnotated(b, B, "", FormatDateWithWeekday);
  }

  // ---------------------------------------------------------------------------
  // The corrected rewrite
  // ---------------------------------------------------------------------------

  /**
    What the comment of `callOpenAIAPI` intends: one pass of the combined expression, so
    that a range is annotated as a range and only a date outside every range as a date.
   */
  function AnnotatedReply(reply: string): string {
    Replaced(Matching(RangeOrDate), reply, FormatDateRangeWithWeekdays)
  }

  /** The corrected rewrite, with the scan loop of `replace`. */
  method AnnotateDates(reply: string) returns (r: string)
    ensures r == AnnotatedReply(reply)
  {
    r := GlobalReplace(Matching(RangeOrDate), reply, FormatDateRangeWithWeekdays);
  }

  /** A reply without a date comes back unchanged. */
  lemma AnnotatedWithoutDates(reply: string)
    requires !HasMatch(Matching(SingleDate), reply)
    ensures AnnotatedReply(reply) == reply
  {
    NoDateNoMatch(RangeOrDate, reply);
    NoMatchUnchanged(Matching(RangeOrDate), reply, FormatDateRangeWithWeekdays);
  }

  /** A range is annotated once, half by half, and the scan goes on after it. */
  lemma AnnotatedRange(a: string, b: string, t: string)
    requires IsDate(a) && IsDate(b)
    ensures var A, B := FormatDateWithWeekday(a)[|a|..], FormatDateWithWeekday(b)[|b|..];
            A in ANNOTATIONS && B in ANNOTATIONS
            && AnnotatedReply(a + "-" + b + t) == a + A + "-" + (b + B) + AnnotatedReply(t)
  {
    ReplaceRange(RangeOrDate, a, b, t, FormatDateRangeWithWeekdays);
    FormattedRange(a, b);
    FormattedDate(b);
  }

  /** A date that starts no range is annotated once, and the scan goes on after it. */
  lemma AnnotatedLoneDate(a: string, t: string)
    requires IsDate(a) && RangeLength(a + t).None?
    ensures var A := FormatDateWithWeekday(a)[|a|..];
            A in ANNOTATIONS && AnnotatedReply(a + t) == a + A + AnnotatedReply(t)
  {
    ReplaceLoneDate(a, t, FormatDateRangeWithWeekdays);
    DateHasTwoDots(a);
    FormattedDate(a);
  }

  /** The range the shipped passes annotate twice is annotated once. */
  lemma AnnotatedRangeOnce(a: string, b: string)
    requires IsDate(a) && IsDate(b)
    ensures var A, B := FormatDateWithWeekday(a)[|a|..], FormatDateWithWeekday(b)[|b|..];
            AnnotatedReply(a + "-" + b) == a + A + "-" + (b + B)
  {
    AnnotatedRange(a, b, "");
    assert a + "-" + b + "" == a + "-" + b;
  }

  // ---------------------------------------------------------------------------
  // An example
  // ---------------------------------------------------------------------------

  /** The two dates of the example are dates. */
  lemma ExampleDates(a: string)
    requires a == "12.05.2025" || a == "14.05.2025"
    ensures IsDate(a)
  {
    assert DateShape(a, 2, 2);
    DateLengthOfShape(a, 2, 2);
  }

  /** The example's annotations. */
  lemma RewriteExampleAnnotations(a: string, b: string)
    requires a == "12.05.2025" && b == "14.05.2025"
    ensures FormatDateWithWeekday(a)[|a|..] == " (Mo)" && FormatDateWithWeekday(b)[|b|..] == " (Mi)"
  {
    FormatExample(a);
    FormatExampleEnd(b);
    assert (a + " (Mo)")[|a|..] == " (Mo)";
    assert (b + " (Mi)")[|b|..] == " (Mi)";
  }

  /**
    `"12.05.2025-14.05.2025"` in a reply: the shipped code fails, the two passes with the
    import annotate both dates twice, the corrected rewrite once.
   */
  lemma RewriteExample(s: string)
    requires s == "12.05.2025-14.05.2025"
    ensures TwoPasses(s, None) == Err(NOT_DEFINED_MESSAGE)
    ensures TwoPasses(s, Some(FormatDateWithWeekday)) == Ok("12.05.2025 (Mo) (Mo)-14.05.2025 (Mi) (Mi)")
    ensures AnnotatedReply(s) == "12.05.2025 (Mo)-14.05.2025 (Mi)"
  {
    var a, b := "12.05.2025", "14.05.2025";
    ExampleDates(a);
    ExampleDates(b);
    RewriteExampleAnnotations(a, b);
    RewriteExampleTexts(s, a, b);
    HasMatchOfDate(a, "-" + b);
    ShippedRewriteFailsOnDates(s);
    TwoPassesAnnotateRangeTwice(a, b);
    AnnotatedRangeOnce(a, b);
  }

  lemma RewriteExampleTexts(s: string, a: string, b: string)
    requires s == "12.05.2025-14.05.2025" && a == "12.05.2025" && b == "14.05.2025"
    ensures s == a + "-" + b && s == a + ("-" + b)
    ensures a + " (Mo)" + " (Mo)" + "-" + (b + " (Mi)" + " (Mi)") == "12.05.2025 (Mo) (Mo)-14.05.2025 (Mi) (Mi)"
    ensures a + " (Mo)" + "-" + (b + " (Mi)") == "12.05.2025 (Mo)-14.05.2025 (Mi)"
  {
  }

  // ---------------------------------------------------------------------------
  // callOpenAIAPI
  // ---------------------------------------------------------------------------

  /**
    The outcome of `callOpenAIAPI`, given the key `getOrPromptForApiKey` settles on, the
    outcome of `analyzeEmailWithOpenAI`, and what `formatDateWithWeekday` is bound to: any
    error is thrown again behind `Failed to analyze email: `.
   */
  function CallResult(key: Result<string, string>, analysis: Result<string, string>,
                      formatter: Option<string -> string>): (r: Result<string, string>)
    ensures r.Err? ==> StartsWith(r.error, FAILURE_PREFIX)
    ensures r.Ok? <==> key.Ok? && analysis.Ok? && TwoPasses(analysis.value, formatter).Ok?
    ensures key.Err? ==> r == Err(FAILURE_PREFIX + key.error)
    ensures key.Ok? && analysis.Err? ==> r == Err(FAILURE_PREFIX + analysis.error)
    ensures r.Ok? ==> r.value == TwoPasses(analysis.value, formatter).value
    ensures (key.Ok? && analysis.Ok? && TwoPasses(analysis.value, formatter).Err?)
            ==> r == Err(FAILURE_PREFIX + NOT_DEFINED_MESSAGE)
  {
    if key.Err? then Err(FAILURE_PREFIX + key.error)
    else if analysis.Err? then Err(FAILURE_PREFIX + analysis.error)
    else
      match TwoPasses(analysis.value, formatter)
      case Ok(rewritten) => Ok(rewritten)
      case Err(e) => Err(FAILURE_PREFIX + e)
  }

  /**
    A service error that the classifier did not recognise already starts with the prefix,
    and `callOpenAIAPI` puts it in front a second time.
   */
  lemma UnrecognisedErrorPrefixedTwice(key: string, online: bool, outcome: FetchOutcome,
                                       formatter: Option<string -> string>)
    requires Attempt(online, outcome).Err? && !Recognised(Attempt(online, outcome).error)
    ensures CallResult(Ok(key), AnalyzeEmailWithOpenAI(online, outcome), formatter)
            == Err(FAILURE_PREFIX + (FAILURE_PREFIX + Attempt(online, outcome).error))
  {
  }

  /**
    `callOpenAIAPI(emailContent)`: the key, then the analysis, then the two rewriting passes,
    with `formatter` standing for the binding of `formatDateWithWeekday` (None as shipped).
    The fetch is not made here: `online` and `outcome` stand for what it would find.
   */
  method CallOpenAIAPI(local: LocalStorage, roaming: RoamingSettings, answer: Option<string>,
                       online: bool, outcome: FetchOutcome, formatter: Option<string -> string>)
    returns (r: Result<string, string>)
    modifies local, roaming
    ensures r == CallResult(KeyChoice(old(GetApiKey(local)), answer), AnalyzeEmailWithOpenAI(online, outcome), formatter)
    ensures Truthy(old(GetApiKey(local))) || !IsValidApiKeyFormat(answer) ==>
              local.items == old(local.items) && roaming.items == old(roaming.items)
    ensures !Truthy(old(GetApiKey(local))) && IsValidApiKeyFormat(answer) ==>
              local.items == ItemsAfterAttempt(local, old(local.items), answer.value)
              && roaming.items == (if roaming.present then old(roaming.items)[API_KEY_ITEM := answer.value]
                                   else old(roaming.items))
  {
    var apiKey := GetOrPromptForApiKey(local, roaming, answer);
    if apiKey.Err? {
      return Err(FAILURE_PREFIX + apiKey.error);
    }
    var analysis := AnalyzeEmailWithOpenAI(online, outcome);
    if analysis.Err? {
      return Err(FAILURE_PREFIX + analysis.error);
    }
    var result := GlobalReplace(Matching(DateRange), analysis.value, FormatDateRangeWithWeekdays);
    if formatter.None? {
      if HasMatch(Matching(SingleDate), result) {
        return Err(FAILURE_PREFIX + NOT_DEFINED_MESSAGE);
      }
      return Ok(result);
    }
    result := GlobalReplace(Matching(SingleDate), result, formatter.value);
    return Ok(result);
  }
}
