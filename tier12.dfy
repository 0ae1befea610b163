/** The Tier-1/2 agent: the escalation classifier, the intent tests, the
    tracking-number scanner, the canned replies and the agent's one mutable
    flag, `asked_for_tracking`. */
module Tier12 {
  import opened Text

  /** `EscalationState.value`: one flag shared by everything in the process. */
  class EscalationState {
    var value: bool

    constructor()
      ensures !value
    {
      value := false;
    }
  }

  // ---------------------------------------------------------------------
  // Escalation classifier (`_should_escalate`)

  const EscalationTerms: seq<string> :=
    ["hayop", "gago", "cancel", "kansel", "dispute",
     "manager", "supervisor", "reklamo", "complaint",
     "refund", "ibalik", "pera", "bayad", "return", "isauli", "palit",
     "cancel order", "order cancellation", "payment dispute"]

  predicate IsPunctuation(c: char) {
    c == '!' || c == '?'
  }

  /** `len(re.findall(r'[!?]', s))`. */
  function PunctuationCount(s: string): (n: nat)
    ensures n <= |s|
  {
    if s == [] then 0 else (if IsPunctuation(s[0]) then 1 else 0) + PunctuationCount(s[1..])
  }

  /** Escalate when the lowered message holds a listed term, or when the raw
      message holds more than two of `!` and `?` together. */
  predicate ShouldEscalate(m: string) {
    ContainsAny(Lower(m), EscalationTerms) || PunctuationCount(m) > 2
  }

  lemma {:induction false} PunctuationCountAppend(a: string, b: string)
    ensures PunctuationCount(a + b) == PunctuationCount(a) + PunctuationCount(b)
  {
    if a != [] {
      assert (a + b)[0] == a[0];
      assert (a + b)[1..] == a[1..] + b;
      PunctuationCountAppend(a[1..], b);
    } else {
      assert a + b == b;
    }
  }

  lemma {:induction false} NoPunctuationCountsZero(s: string)
    requires '!' !in s && '?' !in s
    ensures PunctuationCount(s) == 0
  {
    if s != [] {
      assert s[0] in s;
      assert forall c :: c in s[1..] ==> c in s;
      NoPunctuationCountsZero(s[1..]);
    }
  }

  /** Lowering keeps `!` and `?` where they are, so it keeps their count. */
  lemma {:induction false} PunctuationCountIgnoresCase(s: string)
    ensures PunctuationCount(Lower(s)) == PunctuationCount(s)
  {
    if s != [] {
      assert Lower(s)[0] == LowerChar(s[0]);
      assert IsPunctuation(LowerChar(s[0])) == IsPunctuation(s[0]);
      LowerSlice(s, 1, |s|);
      assert Lower(s)[1..] == Lower(s[1..]);
      PunctuationCountIgnoresCase(s[1..]);
    } else {
      assert Lower(s) == [];
    }
  }

  /** The classifier is blind to ASCII case: a message and its lowered form
      are escalated alike. */
  lemma EscalationIgnoresCase(m: string)
    ensures ShouldEscalate(Lower(m)) == ShouldEscalate(m)
  {
    LowerIdempotent(m);
    PunctuationCountIgnoresCase(m);
  }

  /** Any casing of a listed term ("CANCEL", "Gago") escalates. */
  lemma EscalatesOnAnyCasing(m: string, w: string)
    requires IsSubstring(w, m) && Lower(w) in EscalationTerms
    ensures ShouldEscalate(m)
  {
    SubstringSurvivesLower(w, m);
  }

  /** Three `!`/`?` characters anywhere escalate, whatever the words. */
  lemma EscalatesOnThreeMarks(m: string, i: nat, j: nat, k: nat)
    requires i < j < k < |m|
    requires IsPunctuation(m[i]) && IsPunctuation(m[j]) && IsPunctuation(m[k])
    ensures ShouldEscalate(m)
  {
    assert m == m[..i] + [m[i]] + (m[i + 1..j] + [m[j]] + (m[j + 1..k] + [m[k]] + m[k + 1..]));
    PunctuationCountAppend(m[..i] + [m[i]], m[i + 1..j] + [m[j]] + (m[j + 1..k] + [m[k]] + m[k + 1..]));
    PunctuationCountAppend(m[..i], [m[i]]);
    PunctuationCountAppend(m[i + 1..j] + [m[j]], m[j + 1..k] + [m[k]] + m[k + 1..]);
    PunctuationCountAppend(m[i + 1..j], [m[j]]);
    PunctuationCountAppend(m[j + 1..k] + [m[k]], m[k + 1..]);
    PunctuationCountAppend(m[j + 1..k], [m[k]]);
  }

  /** "GAGO CANCEL NA ORDER KO!!!": profanity, a cancellation and three marks. */
  lemma AngryCancellationEscalates(m: string)
    requires m == "GAGO CANCEL NA ORDER KO" + "!!!"
    ensures OccursAt("gago", Lower(m), 0) && OccursAt("cancel", Lower(m), 5)
    ensures PunctuationCount(m) == 3
    ensures ShouldEscalate(m)
  {
    AngryWordsFound(m);
    AngryMarksCounted(m);
    assert "gago" in EscalationTerms;
  }

  lemma AngryWordsFound(m: string)
    requires m == "GAGO CANCEL NA ORDER KO" + "!!!"
    ensures OccursAt("gago", Lower(m), 0) && OccursAt("cancel", Lower(m), 5)
  {
    LowerSlice(m, 0, 4);
    assert m[0..4] == "GAGO";
    assert Lower("GAGO") == "gago";
    LowerSlice(m, 5, 11);
    assert m[5..11] == "CANCEL";
    assert Lower("CANCEL") == "cancel";
  }

  lemma AngryMarksCounted(m: string)
    requires m == "GAGO CANCEL NA ORDER KO" + "!!!"
    ensures PunctuationCount(m) == 3
  {
    var words, marks := "GAGO CANCEL NA ORDER KO", "!!!";
    assert '!' !in words && '?' !in words;
    NoPunctuationCountsZero(words);
    PunctuationCountAppend(words, marks);
    assert marks[1..][1..][1..] == [];
  }

  // ---------------------------------------------------------------------
  // Intent tests (`_is_order_tracking_query`, `_is_refund_query`)

  const TrackingKeywords: seq<string> := ["track", "nasaan", "saan", "order", "delivery", "status"]

  const RefundKeywords: seq<string> := ["refund", "ibalik", "pera", "bayad", "return", "isauli", "palit"]

  predicate IsOrderTrackingQuery(m: string) {
    ContainsAny(Lower(m), TrackingKeywords)
  }

  predicate IsRefundQuery(m: string) {
    ContainsAny(Lower(m), RefundKeywords)
  }

  /** Any casing of a tracking keyword ("NASAAN", "Order") makes a tracking
      question. */
  lemma TrackingQueryOnAnyCasing(m: string, w: string)
    requires IsSubstring(w, m) && Lower(w) in TrackingKeywords
    ensures IsOrderTrackingQuery(m)
  {
    SubstringSurvivesLower(w, m);
  }

  /** Every refund keyword is also an escalation term, so a refund question is
      always escalated before it can be answered. */
  lemma RefundQueryEscalates(m: string)
    requires IsRefundQuery(m)
    ensures ShouldEscalate(m)
  {
    var w :| w in RefundKeywords && IsSubstring(w, Lower(m));
    assert w in EscalationTerms;
  }

  // ---------------------------------------------------------------------
  // Tracking-number scanner (`_extract_tracking_number`)

  /** The characters a tracking number can be made of. */
  predicate IsTrackingChar(c: char) {
    IsDigit(c) || c == 'S' || c == 'B' || c == '-'
  }

  /** Length of the maximal run of digits that starts at index `i`. */
  function DigitRun(s: string, i: nat): (n: nat)
    requires i <= |s|
    ensures i + n <= |s|
    ensures forall k :: i <= k < i + n ==> IsDigit(s[k])
    ensures i + n == |s| || !IsDigit(s[i + n])
    decreases |s| - i
  {
    if i < |s| && IsDigit(s[i]) then 1 + DigitRun(s, i + 1) else 0
  }

  /** `SB-\d+` (case-sensitive) matches at index `i`. */
  predicate CodeAt(s: string, i: nat) {
    i + 3 < |s| && s[i] == 'S' && s[i + 1] == 'B' && s[i + 2] == '-' && IsDigit(s[i + 3])
  }

  /** `\d{8,}` matches at index `i`. */
  predicate LongRunAt(s: string, i: nat) {
    i + 8 <= |s| && forall k :: i <= k < i + 8 ==> IsDigit(s[k])
  }

  /** The leftmost index at or after `from` where `SB-\d+` matches. */
  function FindCode(s: string, from: nat): (r: Option<nat>)
    requires from <= |s|
    ensures r.Some? ==> from <= r.value && CodeAt(s, r.value)
    ensures r.Some? ==> forall k :: from <= k < r.value ==> !CodeAt(s, k)
    ensures r.None? ==> forall k :: from <= k < |s| ==> !CodeAt(s, k)
    decreases |s| - from
  {
    if from == |s| then None
    else if CodeAt(s, from) then Some(from)
    else FindCode(s, from + 1)
  }

  /** The leftmost index at or after `from` where `\d{8,}` matches. */
  function FindLongRun(s: string, from: nat): (r: Option<nat>)
    requires from <= |s|
    ensures r.Some? ==> from <= r.value && LongRunAt(s, r.value)
    ensures r.Some? ==> forall k :: from <= k < r.value ==> !LongRunAt(s, k)
    ensures r.None? ==> forall k :: from <= k < |s| ==> !LongRunAt(s, k)
    decreases |s| - from
  {
    if from == |s| then None
    else if LongRunAt(s, from) then Some(from)
    else FindLongRun(s, from + 1)
  }

  /** `re.search(r'SB-\d+', m)` first, then `re.search(r'\d{8,}', m)`; each
      match is leftmost and greedy. */
  function ExtractTrackingNumber(m: string): (r: Option<string>)
    ensures r.Some? ==> |r.value| > 0 && IsSubstring(r.value, m)
    ensures r.Some? ==> forall k :: 0 <= k < |r.value| ==> IsTrackingChar(r.value[k])
  {
    match FindCode(m, 0)
    case Some(i) =>
      var e := i + 3 + DigitRun(m, i + 3);
      assert OccursAt(m[i..e], m, i);
      Some(m[i..e])
    case None =>
      match FindLongRun(m, 0)
      case Some(i) =>
        var e := i + DigitRun(m, i);
        assert OccursAt(m[i..e], m, i);
        Some(m[i..e])
      case None => None
  }

  /** A maximal digit run is determined by where it starts. */
  lemma DigitRunEnds(s: string, i: nat, e: nat)
    requires i <= e <= |s|
    requires forall k :: i <= k < e ==> IsDigit(s[k])
    requires e == |s| || !IsDigit(s[e])
    ensures DigitRun(s, i) == e - i
  {
  }

  /** When `SB-` and a digit occur, the result is the leftmost such code
      together with every digit that follows it. */
  lemma ExtractFindsLeftmostCode(m: string, i: nat, e: nat)
    requires CodeAt(m, i) && forall k :: 0 <= k < i ==> !CodeAt(m, k)
    requires i + 3 < e <= |m| && forall k :: i + 3 <= k < e ==> IsDigit(m[k])
    requires e == |m| || !IsDigit(m[e])
    ensures ExtractTrackingNumber(m) == Some(m[i..e])
  {
    var r := FindCode(m, 0);
    if r.Some? {
      assert !(r.value < i) && !(i < r.value);
    }
    DigitRunEnds(m, i + 3, e);
  }

  /** Without any `SB-` code, the result is the leftmost run of eight or more
      digits, taken whole. */
  lemma ExtractFallsBackToLongRun(m: string, i: nat, e: nat)
    requires forall k :: 0 <= k < |m| ==> !CodeAt(m, k)
    requires LongRunAt(m, i) && forall k :: 0 <= k < i ==> !LongRunAt(m, k)
    requires i + 8 <= e <= |m| && forall k :: i <= k < e ==> IsDigit(m[k])
    requires e == |m| || !IsDigit(m[e])
    ensures ExtractTrackingNumber(m) == Some(m[i..e])
  {
    var r := FindLongRun(m, 0);
    if r.Some? {
      assert !(r.value < i) && !(i < r.value);
    }
    DigitRunEnds(m, i, e);
  }

  /** The leftmost long run starts a maximal run: no digit precedes it. */
  lemma LeftmostLongRunIsMaximal(m: string, i: nat)
    requires LongRunAt(m, i) && forall k :: 0 <= k < i ==> !LongRunAt(m, k)
    ensures i == 0 || !IsDigit(m[i - 1])
  {
    if i > 0 && IsDigit(m[i - 1]) {
      assert LongRunAt(m, i - 1);
    }
  }

  /** Nothing is found exactly when neither pattern matches anywhere. */
  lemma ExtractNoneIff(m: string)
    ensures ExtractTrackingNumber(m).None? <==>
      (forall k :: 0 <= k < |m| ==> !CodeAt(m, k)) && (forall k :: 0 <= k < |m| ==> !LongRunAt(m, k))
  {
    if FindCode(m, 0).Some? {
      assert CodeAt(m, FindCode(m, 0).value);
    } else if FindLongRun(m, 0).Some? {
      assert LongRunAt(m, FindLongRun(m, 0).value);
    }
  }

  /** "Nasaan na ang order ko? SB-482913" yields "SB-482913". */
  lemma ExtractsCodeFromQuestion(m: string)
    requires m == "Nasaan na ang order ko? " + "SB-482913"
    ensures ExtractTrackingNumber(m) == Some("SB-482913")
  {
    var p := "Nasaan na ang order ko? ";
    assert 'S' !in p;
    forall k | 0 <= k < 24
      ensures !CodeAt(m, k)
    {
      assert m[k] == p[k];
      assert p[k] in p;
    }
    ExtractFindsLeftmostCode(m, 24, 33);
    assert m[24..33] == "SB-482913";
  }

  /** The same message is a tracking question: it says "order". */
  lemma QuestionIsTrackingQuery(m: string)
    requires m == "Nasaan na ang order ko? " + "SB-482913"
    ensures IsOrderTrackingQuery(m)
  {
    LowerSlice(m, 14, 19);
    assert m[14..19] == "order";
    assert OccursAt("order", Lower(m), 14);
    assert "order" in TrackingKeywords;
  }

  /** The same message, lowered. */
  lemma QuestionLowered(m: string)
    requires m == "Nasaan na ang order ko? " + "SB-482913"
    ensures Lower(m) == QuestionLower
  {
  }

  const QuestionLower := "nasaan na ang " + "order ko? " + "sb-482913"

  /** The letters of the escalation terms that the lowered message lacks. */
  predicate AbsentFromQuestion(c: char) {
    c == 'h' || c == 'c' || c == 'l' || c == 'i' || c == 'm' ||
    c == 'u' || c == 'f' || c == 'p' || c == 'y' || c == 't'
  }

  lemma QuestionLacks(c: char)
    requires AbsentFromQuestion(c)
    ensures c !in QuestionLower
  {
    assert c !in "nasaan na ang " && c !in "order ko? " && c !in "sb-482913";
  }

  /** The lowered message lacks a letter of each of these terms. */
  lemma QuestionLacksFirstTerms()
    ensures !IsSubstring("hayop", QuestionLower) && !IsSubstring("cancel", QuestionLower)
    ensures !IsSubstring("kansel", QuestionLower) && !IsSubstring("dispute", QuestionLower)
    ensures !IsSubstring("manager", QuestionLower) && !IsSubstring("supervisor", QuestionLower)
    ensures !IsSubstring("reklamo", QuestionLower) && !IsSubstring("complaint", QuestionLower)
    ensures !IsSubstring("refund", QuestionLower)
  {
    var l := QuestionLower;
    QuestionLacks('h');
    MissingCharNotSubstring("hayop", l, 'h');
    QuestionLacks('c');
    MissingCharNotSubstring("cancel", l, 'c');
    QuestionLacks('l');
    MissingCharNotSubstring("kansel", l, 'l');
    QuestionLacks('i');
    MissingCharNotSubstring("dispute", l, 'i');
    QuestionLacks('m');
    MissingCharNotSubstring("manager", l, 'm');
    QuestionLacks('u');
    MissingCharNotSubstring("supervisor", l, 'u');
    MissingCharNotSubstring("reklamo", l, 'l');
    MissingCharNotSubstring("complaint", l, 'c');
    QuestionLacks('f');
    MissingCharNotSubstring("refund", l, 'f');
  }

  lemma QuestionLacksLastTerms()
    ensures !IsSubstring("ibalik", QuestionLower) && !IsSubstring("pera", QuestionLower)
    ensures !IsSubstring("bayad", QuestionLower) && !IsSubstring("return", QuestionLower)
    ensures !IsSubstring("isauli", QuestionLower) && !IsSubstring("palit", QuestionLower)
    ensures !IsSubstring("cancel order", QuestionLower)
    ensures !IsSubstring("order cancellation", QuestionLower)
    ensures !IsSubstring("payment dispute", QuestionLower)
  {
    var l := QuestionLower;
    QuestionLacks('i');
    MissingCharNotSubstring("ibalik", l, 'i');
    QuestionLacks('p');
    MissingCharNotSubstring("pera", l, 'p');
    QuestionLacks('y');
    MissingCharNotSubstring("bayad", l, 'y');
    QuestionLacks('t');
    MissingCharNotSubstring("return", l, 't');
    MissingCharNotSubstring("isauli", l, 'i');
    MissingCharNotSubstring("palit", l, 'p');
    QuestionLacks('c');
    MissingCharNotSubstring("cancel order", l, 'c');
    MissingCharNotSubstring("order cancellation", l, 'c');
    MissingCharNotSubstring("payment dispute", l, 'p');
  }

  /** "gago" needs two g's, and the lowered message has one. */
  lemma QuestionLacksGago()
    ensures !IsSubstring("gago", QuestionLower)
  {
    var p, q := "nasaan na an", " " + "order ko? " + "sb-482913";
    assert QuestionLower == p + ['g'] + q;
    assert 'g' !in p && 'g' !in " " && 'g' !in "order ko? " && 'g' !in "sb-482913";
    RepeatedCharNotSubstring("gago", QuestionLower, p, q, 'g', 0, 2);
  }

  /** The message has a single `?` and no `!`. */
  lemma QuestionMarksCounted(m: string)
    requires m == "Nasaan na ang order ko? " + "SB-482913"
    ensures PunctuationCount(m) == 1
  {
    var question, code := "Nasaan na ang order ko? ", "SB-482913";
    QuestionHeadCounted(question);
    QuestionPartsUnmarked("Nasaan na ang order ko", code);
    PunctuationCountAppend(question, code);
  }

  lemma QuestionHeadCounted(question: string)
    requires question == "Nasaan na ang order ko? "
    ensures PunctuationCount(question) == 1
  {
    var words := "Nasaan na ang order ko";
    QuestionHeadSplits(question, words);
    QuestionPartsUnmarked(words, "SB-482913");
    OneMarkAfter(words, "? ");
  }

  lemma QuestionHeadSplits(question: string, words: string)
    requires question == "Nasaan na ang order ko? " && words == "Nasaan na ang order ko"
    ensures question == words + "? "
  {
  }

  /** A `?` and a blank after unmarked text add one mark. */
  lemma OneMarkAfter(words: string, mark: string)
    requires PunctuationCount(words) == 0 && mark == "? "
    ensures PunctuationCount(words + mark) == 1
  {
    assert mark[1..] == " ";
    PunctuationCountAppend(words, mark);
  }

  /** The parts of the message around its `?` hold no marks. */
  lemma QuestionPartsUnmarked(words: string, code: string)
    requires words == "Nasaan na ang order ko" && code == "SB-482913"
    ensures PunctuationCount(words) == 0 && PunctuationCount(code) == 0
  {
    assert '!' !in words && '?' !in words;
    assert '!' !in code && '?' !in code;
    NoPunctuationCountsZero(words);
    NoPunctuationCountsZero(code);
  }

  /** The tracking question is not escalated: it holds no escalation term and
      only one mark. */
  lemma QuestionDoesNotEscalate(m: string)
    requires m == "Nasaan na ang order ko? " + "SB-482913"
    ensures !ShouldEscalate(m)
  {
    QuestionLowered(m);
    QuestionLacksFirstTerms();
    QuestionLacksLastTerms();
    QuestionLacksGago();
    QuestionMarksCounted(m);
  }

  // ---------------------------------------------------------------------
  // Replies

  /** The part of the transfer message that the manager looks for. */
  const TransferPhrase := "Ipapasa ko po kayo"

  const TransferMessage := TransferPhrase + " sa aming senior agent" +
    " para mas makatulong" + " sa inyo. Sandali lang po."

  const TrackingPrompt := "Pakibigay po ang inyong " + "tracking number para " +
    "macheck ko ang status " + "ng order niyo."

  /** The default reply, a question and an offer of the two services. */
  const DefaultReply := DefaultQuestion + DefaultOffer
  const DefaultQuestion := "Ano pa pong maitutulong " + "ko sa inyo? "
  const DefaultOffer := "Pwede kong tulungan " + "sa pag-track ng order " +
    "o kaya naman sa mga " + "katanungan tungkol sa " + "returns at refunds."

  /** `_provide_refund_information`: the reporting window, then where to file. */
  const RefundInformation := RefundWindow + RefundChannel
  const RefundWindow := "Para sa refund po, " + "kailangan i-report ang " +
    "issue within 7 days " + "ng delivery. "
  const RefundChannel := "Pwede po kayong " + "mag-submit ng request " + "sa ShopBilis app."

  /** The index `random.choice` picks among the five statuses. */
  type StatusIndex = i: nat | i < 5

  /** A status message: the text before and the text after the tracking number. */
  datatype StatusTemplate = StatusTemplate(before: string, after: string)

  const OutForDelivery := StatusTemplate("Ang order niyo po (", ") ay OUT FOR DELIVERY " + "na ngayong araw.")
  const ToShip := StatusTemplate("Good news! Ang order " + "niyo (", ") ay TO SHIP at " + "ide-deliver within " + "24-48 hours.")
  const Delivered := StatusTemplate("DELIVERED na po ang " + "order niyo (", ") kaninang 2:30PM.")
  const Preparing := StatusTemplate("Ang order niyo po (", ") ay PREPARING FOR " + "SHIPMENT.")
  const Sorting := StatusTemplate("Na-process na po ang " + "order niyo (", ") at nasa SORTING " + "FACILITY namin ngayon.")

  /** The `statuses` list of `_get_order_status`, in its order. */
  const StatusTemplates: seq<StatusTemplate> := [OutForDelivery, ToShip, Delivered, Preparing, Sorting]

  /** `_get_order_status(t)` once the random choice is made. */
  function OrderStatus(t: string, choice: StatusIndex): (r: string)
    ensures IsSubstring(t, r)
  {
    var template := StatusTemplates[choice];
    OccursInConcat(template.before, t, template.after);
    template.before + t + template.after
  }

  /** The five statuses are five different messages for every tracking number. */
  lemma StatusesDistinct(t: string, i: StatusIndex, j: StatusIndex)
    requires i != j
    ensures OrderStatus(t, i) != OrderStatus(t, j)
  {
    StatusFrameLength(i);
    StatusFrameLength(j);
  }

  /** The text around the tracking number has a different length in each of
      the five statuses. */
  lemma StatusFrameLength(choice: StatusIndex)
    ensures |StatusTemplates[choice].before| + |StatusTemplates[choice].after| == [57, 74, 50, 47, 73][choice]
  {
  }

  lemma StatusNotRefundInformation(t: string, choice: StatusIndex)
    ensures OrderStatus(t, choice) != RefundInformation
  {
    assert OrderStatus(t, choice)[0] == StatusTemplates[choice].before[0];
  }

  lemma TransferPhraseInTransferMessage()
    ensures IsSubstring(TransferPhrase, TransferMessage)
  {
    var rest := TransferMessage[|TransferPhrase|..];
    assert "" + TransferPhrase + rest == TransferMessage;
    OccursInConcat("", TransferPhrase, rest);
  }

  /** Tracking numbers carry none of the letters of the transfer phrase. */
  lemma TrackingNumberLacks(t: string, c: char)
    requires forall k :: 0 <= k < |t| ==> IsTrackingChar(t[k])
    requires c == 'I' || c == 'k' || c == 's'
    ensures c !in t
  {
  }

  /** `c` occurs in neither half of the template. */
  predicate TemplateLacks(template: StatusTemplate, c: char) {
    c !in template.before && c !in template.after
  }

  lemma OutForDeliveryLacksK()
    ensures TemplateLacks(OutForDelivery, 'k')
  {
    assert 'k' !in ") ay OUT FOR DELIVERY " && 'k' !in "na ngayong araw.";
  }

  lemma ToShipLacksK()
    ensures TemplateLacks(ToShip, 'k')
  {
    assert 'k' !in "Good news! Ang order " && 'k' !in "niyo (";
    assert 'k' !in ") ay TO SHIP at " && 'k' !in "ide-deliver within " && 'k' !in "24-48 hours.";
  }

  lemma DeliveredLacksS()
    ensures TemplateLacks(Delivered, 's')
  {
    assert 's' !in "DELIVERED na po ang " && 's' !in "order niyo (";
  }

  lemma PreparingLacksK()
    ensures TemplateLacks(Preparing, 'k')
  {
    assert 'k' !in ") ay PREPARING FOR " && 'k' !in "SHIPMENT.";
  }

  lemma SortingLacksK()
    ensures TemplateLacks(Sorting, 'k')
  {
    assert 'k' !in "Na-process na po ang " && 'k' !in "order niyo (";
    assert 'k' !in ") at nasa SORTING " && 'k' !in "FACILITY namin ngayon.";
  }

  /** No status message contains the transfer phrase. */
  lemma StatusLacksTransferPhrase(t: string, choice: StatusIndex)
    requires forall k :: 0 <= k < |t| ==> IsTrackingChar(t[k])
    ensures !IsSubstring(TransferPhrase, OrderStatus(t, choice))
  {
    var c := if choice == 2 then 's' else 'k';
    assert c in TransferPhrase;
    TrackingNumberLacks(t, c);
    if choice == 0 {
      OutForDeliveryLacksK();
    } else if choice == 1 {
      ToShipLacksK();
    } else if choice == 2 {
      DeliveredLacksS();
    } else if choice == 3 {
      PreparingLacksK();
    } else {
      SortingLacksK();
    }
    MissingCharNotSubstring(TransferPhrase, OrderStatus(t, choice), c);
  }

  /** The capital I that starts the transfer phrase. */
  lemma TransferPhraseHasCapitalI()
    ensures 'I' in TransferPhrase
  {
    assert TransferPhrase[0] == 'I';
  }

  lemma TrackingPromptLacksCapitalI()
    ensures 'I' !in TrackingPrompt
  {
    assert 'I' !in "Pakibigay po ang inyong " && 'I' !in "tracking number para ";
    assert 'I' !in "macheck ko ang status " && 'I' !in "ng order niyo.";
  }

  lemma DefaultQuestionLacksCapitalI()
    ensures 'I' !in DefaultQuestion
  {
    assert 'I' !in "Ano pa pong maitutulong " && 'I' !in "ko sa inyo? ";
  }

  lemma DefaultOfferLacksCapitalI()
    ensures 'I' !in DefaultOffer
  {
    assert 'I' !in "Pwede kong tulungan " && 'I' !in "sa pag-track ng order ";
    assert 'I' !in "o kaya naman sa mga " && 'I' !in "katanungan tungkol sa ";
    assert 'I' !in "returns at refunds.";
  }

  lemma RefundWindowLacksCapitalI()
    ensures 'I' !in RefundWindow
  {
    assert 'I' !in "Para sa refund po, " && 'I' !in "kailangan i-report ang ";
    assert 'I' !in "issue within 7 days " && 'I' !in "ng delivery. ";
  }

  lemma RefundChannelLacksCapitalI()
    ensures 'I' !in RefundChannel
  {
    assert 'I' !in "Pwede po kayong " && 'I' !in "mag-submit ng request " && 'I' !in "sa ShopBilis app.";
  }

  /** The fixed replies other than the transfer message lack its capital I. */
  lemma CannedRepliesLackTransferPhrase()
    ensures !IsSubstring(TransferPhrase, TrackingPrompt)
    ensures !IsSubstring(TransferPhrase, DefaultReply)
    ensures !IsSubstring(TransferPhrase, RefundInformation)
  {
    TransferPhraseHasCapitalI();
    TrackingPromptLacksCapitalI();
    MissingCharNotSubstring(TransferPhrase, TrackingPrompt, 'I');
    DefaultQuestionLacksCapitalI();
    DefaultOfferLacksCapitalI();
    MissingCharNotSubstring(TransferPhrase, DefaultReply, 'I');
    RefundWindowLacksCapitalI();
    RefundChannelLacksCapitalI();
    MissingCharNotSubstring(TransferPhrase, RefundInformation, 'I');
  }

  // ---------------------------------------------------------------------
  // Routing of a message that is not escalated (`_handle_normal_query`)

  /** What `_handle_normal_query` answers and where it leaves
      `asked_for_tracking`, from the flag's value before the call. */
  predicate NormalRouting(asked: bool, m: string, choice: StatusIndex, reply: string, asked': bool) {
    var t := ExtractTrackingNumber(m);
    // a tracking question without a number: ask for it and remember asking
    (IsOrderTrackingQuery(m) && t.None? ==> asked' && reply == TrackingPrompt) &&
    // a tracking question with a number: the status, flag untouched
    (IsOrderTrackingQuery(m) && t.Some? ==> asked' == asked && reply == OrderStatus(t.value, choice)) &&
    // the number we asked for arrives: the status, flag left set
    (!IsOrderTrackingQuery(m) && asked && t.Some? ==> asked' && reply == OrderStatus(t.value, choice)) &&
    // otherwise the flag ends cleared and the refund or default reply follows
    (!IsOrderTrackingQuery(m) && (!asked || t.None?) ==>
       !asked' && reply == (if IsRefundQuery(m) then RefundInformation else DefaultReply))
  }

  /** The routing relation leaves nothing open: one reply and one flag value. */
  lemma NormalRoutingIsFunctional(asked: bool, m: string, choice: StatusIndex,
                                  r1: string, f1: bool, r2: string, f2: bool)
    requires NormalRouting(asked, m, choice, r1, f1) && NormalRouting(asked, m, choice, r2, f2)
    ensures r1 == r2 && f1 == f2
  {
  }

  /** A routed reply never contains the transfer phrase. */
  lemma NormalRoutingNeverTransfers(asked: bool, m: string, choice: StatusIndex, reply: string, asked': bool)
    requires NormalRouting(asked, m, choice, reply, asked')
    ensures !IsSubstring(TransferPhrase, reply)
  {
    CannedRepliesLackTransferPhrase();
    var t := ExtractTrackingNumber(m);
    if t.Some? {
      StatusLacksTransferPhrase(t.value, choice);
    }
  }

  /** The refund answer is given only to a refund question that came with no
      pending tracking number. */
  lemma RefundAnswerNeedsRefundQuery(asked: bool, m: string, choice: StatusIndex, reply: string, asked': bool)
    requires NormalRouting(asked, m, choice, reply, asked') && reply == RefundInformation
    ensures IsRefundQuery(m) && !IsOrderTrackingQuery(m) && !asked'
  {
    var t := ExtractTrackingNumber(m);
    assert |DefaultReply| != |RefundInformation|;
    assert |TrackingPrompt| != |RefundInformation|;
    if t.Some? && (IsOrderTrackingQuery(m) || asked) {
      StatusNotRefundInformation(t.value, choice);
    }
  }

  // ---------------------------------------------------------------------
  // The agent

  class Tier12Agent {
    var askedForTracking: bool

    constructor()
      ensures !askedForTracking
    {
      askedForTracking := false;
    }

    /** `handle_message`: escalate, or route the message. */
    method HandleMessage(state: EscalationState, message: string, choice: StatusIndex) returns (reply: string)
      modifies this, state
      ensures ShouldEscalate(message) ==>
        state.value && reply == TransferMessage && askedForTracking == old(askedForTracking)
      ensures !ShouldEscalate(message) ==>
        state.value == old(state.value) &&
        NormalRouting(old(askedForTracking), message, choice, reply, askedForTracking)
      ensures IsSubstring(TransferPhrase, reply) <==> ShouldEscalate(message)
      ensures reply != RefundInformation
    {
      if ShouldEscalate(message) {
        state.value := true;
        TransferPhraseInTransferMessage();
        assert |TransferMessage| != |RefundInformation|;
        return TransferMessage;
      }
      ghost var asked := askedForTracking;
      reply := HandleNormalQuery(message, choice);
      NormalRoutingNeverTransfers(asked, message, choice, reply, askedForTracking);
      if reply == RefundInformation {
        RefundAnswerNeedsRefundQuery(asked, message, choice, reply, askedForTracking);
        RefundQueryEscalates(message);
      }
    }

    /** `_handle_normal_query`. */
    method HandleNormalQuery(message: string, choice: StatusIndex) returns (reply: string)
      modifies this
      ensures NormalRouting(old(askedForTracking), message, choice, reply, askedForTracking)
    {
      if IsOrderTrackingQuery(message) {
        var trackingNumber := ExtractTrackingNumber(message);
        if trackingNumber.Some? && trackingNumber.value != "" {
          return OrderStatus(trackingNumber.value, choice);
        } else {
          askedForTracking := true;
          return TrackingPrompt;
        }
      }
      if askedForTracking {
        var trackingNumber := ExtractTrackingNumber(message);
        if trackingNumber.Some? && trackingNumber.value != "" {
          return OrderStatus(trackingNumber.value, choice);
        }
        askedForTracking := false;
      }
      if IsRefundQuery(message) {
        return RefundInformation;
      }
      return DefaultReply;
    }
  }
}
