/** The Tier-3 specialist: a case number drawn once at construction, a
    greeting chosen on the first message, then a closing or a request for the
    wanted resolution. */
module Tier3 {
  import opened Text
  import Tier12

  // ---------------------------------------------------------------------
  // Case number

  /** The range of `random.randint(100000, 999999)`, both ends included. */
  type CaseSerial = n: int | 100000 <= n <= 999999 witness 100000

  /** "SB-" and six digits, the first of them not zero. */
  predicate IsCaseNumber(s: string) {
    |s| == 9 && s[0] == 'S' && s[1] == 'B' && s[2] == '-' && AllDigits(s[3..]) && s[3] != '0'
  }

  /** `f"SB-{serial}"`: the case number shows the drawn serial in six digits,
      and reading the digits back gives the serial. */
  function CaseNumber(serial: CaseSerial): (r: string)
    ensures IsCaseNumber(r)
    ensures ParseDecimal(r[3..]) == serial
  {
    assert Pow10(5) == 100000 && Pow10(6) == 1000000;
    DecimalLength(serial, 5);
    DecimalRoundTrip(serial);
    var digits := DecimalString(serial);
    assert ("SB-" + digits)[3..] == digits;
    "SB-" + digits
  }

  lemma CaseNumberLacksCapitalI(cn: string)
    requires IsCaseNumber(cn)
    ensures 'I' !in cn
  {
    assert forall k :: 3 <= k < 9 ==> cn[k] == cn[3..][k - 3];
  }

  /** `Case #{case_number}`, the reference every Tier-3 reply carries. */
  function CaseRef(cn: string): string {
    "Case #" + cn
  }

  lemma CaseRefLacksCapitalI(cn: string)
    requires IsCaseNumber(cn)
    ensures 'I' !in CaseRef(cn)
  {
    CaseNumberLacksCapitalI(cn);
  }

  // ---------------------------------------------------------------------
  // Greeting (`_generate_greeting`)

  const CancellationWords: seq<string> := ["cancel", "kansel"]

  const PaymentWords: seq<string> := ["bayad", "payment"]

  predicate MentionsCancellation(m: string) {
    ContainsAny(Lower(m), CancellationWords)
  }

  predicate MentionsPayment(m: string) {
    ContainsAny(Lower(m), PaymentWords)
  }

  const Introduction := "Magandang araw po! " + "Ako si Maria, senior " + "specialist ng ShopBilis. "

  const ReferenceNatin := " po ang reference natin. "

  const CancellationAcknowledgement := "Naiintindihan ko po " + "ang inyong concern " +
    "tungkol sa cancellation. " + "Maaari po nating " + "i-arrange ang return " + "pickup."

  const PaymentAcknowledgement := "Tungkol po sa payment " + "concern, ive-verify ko " +
    "agad ang transaction."

  const Apology := "Humihingi ako ng " + "paumanhin sa naging " + "karanasan niyo. " +
    "Paano ko po kayo " + "matutulungan?"

  /** The three greetings share the introduction and the case reference and
      differ in what they acknowledge. */
  function GreetingWith(cn: string, acknowledgement: string): string {
    Introduction + CaseRef(cn) + ReferenceNatin + acknowledgement
  }

  function CancellationGreeting(cn: string): string {
    GreetingWith(cn, CancellationAcknowledgement)
  }

  function PaymentGreeting(cn: string): string {
    GreetingWith(cn, PaymentAcknowledgement)
  }

  function GenericGreeting(cn: string): string {
    GreetingWith(cn, Apology)
  }

  /** `_generate_greeting(message)`: cancellation first, then payment, then
      the apology. */
  function Greeting(cn: string, m: string): string {
    if MentionsCancellation(m) then CancellationGreeting(cn)
    else if MentionsPayment(m) then PaymentGreeting(cn)
    else GenericGreeting(cn)
  }

  lemma GreetingsDistinct(cn: string)
    ensures CancellationGreeting(cn) != PaymentGreeting(cn)
    ensures CancellationGreeting(cn) != GenericGreeting(cn)
    ensures PaymentGreeting(cn) != GenericGreeting(cn)
  {
    assert |CancellationAcknowledgement| == 109;
    assert |PaymentAcknowledgement| == 66;
    assert |Apology| == 83;
  }

  /** Each greeting is picked exactly when its condition holds, with
      cancellation over payment over the apology. */
  lemma GreetingChoice(cn: string, m: string)
    ensures Greeting(cn, m) == CancellationGreeting(cn) <==> MentionsCancellation(m)
    ensures Greeting(cn, m) == PaymentGreeting(cn) <==> !MentionsCancellation(m) && MentionsPayment(m)
    ensures Greeting(cn, m) == GenericGreeting(cn) <==> !MentionsCancellation(m) && !MentionsPayment(m)
  {
    GreetingsDistinct(cn);
  }

  // ---------------------------------------------------------------------
  // Closing and solution (`_generate_positive_closing`, `_generate_solution`)

  const AffirmationWords: seq<string> := ["ok", "sige", "yes", "oo", "ayos", "salamat"]

  predicate IsAffirmation(m: string) {
    ContainsAny(Lower(m), AffirmationWords)
  }

  const Thanks := "Maraming salamat po! " + "Na-process na po ang " + "resolution natin. "

  const ReferenceNiyo := " po ang reference niyo. "

  const ConfirmationNotice := "Makakatanggap po kayo " + "ng email confirmation " + "within "

  /** The promised confirmation window. */
  const ConfirmationWindow := "24 hours"

  function Closing(cn: string): string {
    Thanks + CaseRef(cn) + ReferenceNiyo + ConfirmationNotice + ConfirmationWindow + "."
  }

  const ResolutionQuestion := ", ano pong specific " + "na resolution ang mas " + "gusto niyo? "

  const Authority := "Bilang senior " + "specialist, may " + "authority po akong " +
    "magbigay ng " + "personalized na " + "solusyon para sa inyo."

  function Solution(cn: string): string {
    "Para sa " + CaseRef(cn) + ResolutionQuestion + Authority
  }

  lemma ClosingIsNotSolution(cn: string)
    ensures Closing(cn) != Solution(cn)
  {
    assert |Closing(cn)| == 150 + |cn|;
    assert |Solution(cn)| == 167 + |cn|;
  }

  // ---------------------------------------------------------------------
  // What every reply says

  /** Each of the five replies carries the case reference. */
  lemma RepliesCarryCaseRef(cn: string)
    ensures IsSubstring(CaseRef(cn), CancellationGreeting(cn))
    ensures IsSubstring(CaseRef(cn), PaymentGreeting(cn))
    ensures IsSubstring(CaseRef(cn), GenericGreeting(cn))
    ensures IsSubstring(CaseRef(cn), Closing(cn))
    ensures IsSubstring(CaseRef(cn), Solution(cn))
  {
    GreetingCarriesCaseRef(cn, CancellationAcknowledgement);
    GreetingCarriesCaseRef(cn, PaymentAcknowledgement);
    GreetingCarriesCaseRef(cn, Apology);
    ClosingCarriesCaseRef(cn);
    SolutionCarriesCaseRef(cn);
  }

  lemma ClosingCarriesCaseRef(cn: string)
    ensures IsSubstring(CaseRef(cn), Closing(cn))
  {
    var tail := ReferenceNiyo + ConfirmationNotice + ConfirmationWindow + ".";
    assert Closing(cn) == Thanks + CaseRef(cn) + tail;
    OccursInConcat(Thanks, CaseRef(cn), tail);
  }

  lemma SolutionCarriesCaseRef(cn: string)
    ensures IsSubstring(CaseRef(cn), Solution(cn))
  {
    assert Solution(cn) == "Para sa " + CaseRef(cn) + (ResolutionQuestion + Authority);
    OccursInConcat("Para sa ", CaseRef(cn), ResolutionQuestion + Authority);
  }

  lemma GreetingCarriesCaseRef(cn: string, acknowledgement: string)
    ensures IsSubstring(CaseRef(cn), GreetingWith(cn, acknowledgement))
  {
    assert GreetingWith(cn, acknowledgement) ==
      Introduction + CaseRef(cn) + (ReferenceNatin + acknowledgement);
    OccursInConcat(Introduction, CaseRef(cn), ReferenceNatin + acknowledgement);
  }

  /** The closing promises the confirmation within 24 hours. */
  lemma ClosingPromisesWindow(cn: string)
    ensures IsSubstring("24 hours", Closing(cn))
  {
    OccursInConcat(Thanks + CaseRef(cn) + ReferenceNiyo + ConfirmationNotice, ConfirmationWindow, ".");
  }

  lemma IntroductionLacksCapitalI()
    ensures 'I' !in Introduction + ReferenceNatin
  {
    assert 'I' !in "Magandang araw po! " && 'I' !in "Ako si Maria, senior ";
    assert 'I' !in "specialist ng ShopBilis. " && 'I' !in ReferenceNatin;
  }

  lemma CancellationAcknowledgementLacksCapitalI()
    ensures 'I' !in CancellationAcknowledgement
  {
    assert 'I' !in "Naiintindihan ko po " && 'I' !in "ang inyong concern ";
    assert 'I' !in "tungkol sa cancellation. " && 'I' !in "Maaari po nating ";
    assert 'I' !in "i-arrange ang return " && 'I' !in "pickup.";
  }

  lemma PaymentAcknowledgementLacksCapitalI()
    ensures 'I' !in PaymentAcknowledgement
  {
    assert 'I' !in "Tungkol po sa payment " && 'I' !in "concern, ive-verify ko ";
    assert 'I' !in "agad ang transaction.";
  }

  lemma ApologyLacksCapitalI()
    ensures 'I' !in Apology
  {
    assert 'I' !in "Humihingi ako ng " && 'I' !in "paumanhin sa naging ";
    assert 'I' !in "karanasan niyo. " && 'I' !in "Paano ko po kayo " && 'I' !in "matutulungan?";
  }

  lemma ThanksLacksCapitalI()
    ensures 'I' !in Thanks + ReferenceNiyo
  {
    assert 'I' !in "Maraming salamat po! " && 'I' !in "Na-process na po ang ";
    assert 'I' !in "resolution natin. " && 'I' !in ReferenceNiyo;
  }

  lemma ConfirmationLacksCapitalI()
    ensures 'I' !in ConfirmationNotice + ConfirmationWindow + "."
  {
    assert 'I' !in "Makakatanggap po kayo " && 'I' !in "ng email confirmation ";
    assert 'I' !in "within " && 'I' !in ConfirmationWindow;
  }

  lemma ResolutionQuestionLacksCapitalI()
    ensures 'I' !in "Para sa " + ResolutionQuestion
  {
    assert 'I' !in ", ano pong specific " && 'I' !in "na resolution ang mas " && 'I' !in "gusto niyo? ";
  }

  lemma AuthorityLacksCapitalI()
    ensures 'I' !in Authority
  {
    assert 'I' !in "Bilang senior " && 'I' !in "specialist, may " && 'I' !in "authority po akong ";
    assert 'I' !in "magbigay ng " && 'I' !in "personalized na " && 'I' !in "solusyon para sa inyo.";
  }

  /** No Tier-3 reply contains the phrase the manager takes for a transfer. */
  lemma RepliesLackTransferPhrase(cn: string)
    requires IsCaseNumber(cn)
    ensures !IsSubstring(Tier12.TransferPhrase, CancellationGreeting(cn))
    ensures !IsSubstring(Tier12.TransferPhrase, PaymentGreeting(cn))
    ensures !IsSubstring(Tier12.TransferPhrase, GenericGreeting(cn))
    ensures !IsSubstring(Tier12.TransferPhrase, Closing(cn))
    ensures !IsSubstring(Tier12.TransferPhrase, Solution(cn))
  {
    Tier12.TransferPhraseHasCapitalI();
    CaseRefLacksCapitalI(cn);
    IntroductionLacksCapitalI();
    CancellationAcknowledgementLacksCapitalI();
    PaymentAcknowledgementLacksCapitalI();
    ApologyLacksCapitalI();
    ThanksLacksCapitalI();
    ConfirmationLacksCapitalI();
    ResolutionQuestionLacksCapitalI();
    AuthorityLacksCapitalI();
    MissingCharNotSubstring(Tier12.TransferPhrase, CancellationGreeting(cn), 'I');
    MissingCharNotSubstring(Tier12.TransferPhrase, PaymentGreeting(cn), 'I');
    MissingCharNotSubstring(Tier12.TransferPhrase, GenericGreeting(cn), 'I');
    MissingCharNotSubstring(Tier12.TransferPhrase, Closing(cn), 'I');
    MissingCharNotSubstring(Tier12.TransferPhrase, Solution(cn), 'I');
  }

  /** "salamat, ok na" closes the case. */
  lemma ThanksIsAffirmation(m: string)
    requires m == "salamat, ok na"
    ensures IsAffirmation(m)
  {
    LowerSlice(m, 0, 7);
    assert m[0..7] == "salamat";
    assert Lower("salamat") == "salamat";
    assert OccursAt("salamat", Lower(m), 0);
    assert "salamat" in AffirmationWords;
  }

  // ---------------------------------------------------------------------
  // The agent

  class Tier3Agent {
    const caseNumber: string
    var firstMessage: bool

    predicate Valid() {
      IsCaseNumber(caseNumber)
    }

    /** `__init__`, with the serial that `random.randint` drew. */
    constructor(serial: CaseSerial)
      ensures caseNumber == CaseNumber(serial) && firstMessage
      ensures Valid()
    {
      caseNumber := CaseNumber(serial);
      firstMessage := true;
    }

    /** `handle_message`: greet once, then close or ask for the resolution. */
    method HandleMessage(message: string) returns (reply: string)
      requires Valid()
      modifies this
      ensures !firstMessage
      ensures old(firstMessage) ==> reply == Greeting(caseNumber, message)
      ensures !old(firstMessage) ==>
        reply == if IsAffirmation(message) then Closing(caseNumber) else Solution(caseNumber)
      ensures IsSubstring(CaseRef(caseNumber), reply)
      ensures !IsSubstring(Tier12.TransferPhrase, reply)
    {
      RepliesCarryCaseRef(caseNumber);
      RepliesLackTransferPhrase(caseNumber);
      if firstMessage {
        firstMessage := false;
        return Greeting(caseNumber, message);
      }
      if IsAffirmation(message) {
        return Closing(caseNumber);
      }
      return Solution(caseNumber);
    }
  }
}
