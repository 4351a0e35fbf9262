/**
 * `generate_message`: the Spanish reminder text for an account.  Which of
 * the two templates is used depends on whether the account has expired on
 * the given day; both name the client and the platform first and end with
 * the expiration date, formatted `DD/MM/YYYY`, and a fixed closing sentence.
 */
module Messages {
  import opened Wrappers
  import opened Dates
  import opened DateFormat
  import opened Models

  const EXPIRED_VERB := "se venció el "
  const EXPIRED_CLOSING := ". Por favor, renueva para continuar disfrutando del servicio. ¡Gracias!"
  const ACTIVE_VERB := "vence el "
  const ACTIVE_CLOSING := ". ¡Recuerda renovarla a tiempo!"

  /** The opening both templates share. */
  function Greeting(a: Account): string {
    "Hola " + a.clientName + ", tu suscripción de " + a.platform + " "
  }

  /** What can be read back from a reminder: which template it uses and the date it names. */
  datatype Reading = Reading(expired: bool, date: CalendarDate)

  /** The last `n` characters of `s`. */
  function Last(s: string, n: nat): string
    requires n <= |s|
  {
    s[|s| - n..]
  }

  /**
   * Recognises the end of a reminder, `verb + DD/MM/YYYY + closing`, and
   * reads the date in it; `None` when `msg` does not end that way.
   */
  function ReadEnding(msg: string, verb: string, closing: string): Option<CalendarDate> {
    var n := |verb| + 10 + |closing|;
    if n <= |msg| && Last(msg, n)[..|verb|] == verb && Last(msg, |closing|) == closing
    then ParseDate(Last(msg, n)[|verb|..|verb| + 10])
    else None
  }

  /** Reads a reminder back from its ending; the expired template is tried first. */
  function ReadMessage(msg: string): Option<Reading> {
    match ReadEnding(msg, EXPIRED_VERB, EXPIRED_CLOSING)
    case Some(d) => Some(Reading(true, d))
    case None =>
      match ReadEnding(msg, ACTIVE_VERB, ACTIVE_CLOSING)
      case Some(d) => Some(Reading(false, d))
      case None => None
  }

  /** A message that ends with `verb + formatted date + closing` reads back as that date. */
  lemma ReadEndingOf(prefix: string, verb: string, d: Date, closing: string)
    ensures ReadEnding(prefix + verb + FormatDate(d) + closing, verb, closing) == Some(d)
  {
    var date := FormatDate(d);
    var msg := prefix + verb + date + closing;
    var n := |verb| + 10 + |closing|;
    assert Last(msg, n) == verb + date + closing;
    assert Last(msg, n)[|verb|..|verb| + 10] == date;
    assert Last(msg, |closing|) == closing;
    ParseFormatRoundTrip(d);
  }

  /** No active reminder ends with the expired closing: their second-to-last characters differ. */
  lemma ActiveIsNotExpired(prefix: string, d: Date)
    ensures ReadEnding(prefix + ACTIVE_VERB + FormatDate(d) + ACTIVE_CLOSING, EXPIRED_VERB, EXPIRED_CLOSING) == None
  {
    var msg := prefix + ACTIVE_VERB + FormatDate(d) + ACTIVE_CLOSING;
    assert msg[|msg| - 2] == 'o';
    if |EXPIRED_CLOSING| <= |msg| {
      assert Last(msg, |EXPIRED_CLOSING|)[|EXPIRED_CLOSING| - 2] == 'o';
      assert EXPIRED_CLOSING[|EXPIRED_CLOSING| - 2] == 's';
    }
  }

  /**
   * `generate_message`: the expired template when the account has expired
   * on `today`, the active one otherwise.
   */
  function GenerateMessage(a: Account, today: Date): (msg: string)
    ensures |Greeting(a)| < |msg| && msg[..|Greeting(a)|] == Greeting(a)
    ensures |msg| == |Greeting(a)| + (if IsExpired(a, today) then |EXPIRED_VERB| + 10 + |EXPIRED_CLOSING|
                                      else |ACTIVE_VERB| + 10 + |ACTIVE_CLOSING|)
  {
    var date := FormatDate(a.expirationDate);
    if IsExpired(a, today) then Greeting(a) + EXPIRED_VERB + date + EXPIRED_CLOSING
    else Greeting(a) + ACTIVE_VERB + date + ACTIVE_CLOSING
  }

  /**
   * A reminder reads back as the template chosen by the account's expiry
   * status on `today` and as the account's expiration date.
   */
  lemma MessageRoundTrip(a: Account, today: Date)
    ensures ReadMessage(GenerateMessage(a, today)) == Some(Reading(IsExpired(a, today), a.expirationDate))
  {
    if IsExpired(a, today) {
      ReadEndingOf(Greeting(a), EXPIRED_VERB, a.expirationDate, EXPIRED_CLOSING);
    } else {
      ReadEndingOf(Greeting(a), ACTIVE_VERB, a.expirationDate, ACTIVE_CLOSING);
      ActiveIsNotExpired(Greeting(a), a.expirationDate);
    }
  }

  /** The reminder of one account changes with `today` exactly when its expiry status does. */
  lemma MessageChangesWithStatus(a: Account, today1: Date, today2: Date)
    ensures GenerateMessage(a, today1) == GenerateMessage(a, today2) <==> IsExpired(a, today1) == IsExpired(a, today2)
  {
    MessageRoundTrip(a, today1);
    MessageRoundTrip(a, today2);
  }

  /** The worked example: Ana's Netflix account, expired on 10 January 2024. */
  lemma ExpiredExample(today: Date)
    requires Before(CalendarDate(2024, 1, 10), today)
    ensures GenerateMessage(Account(1, "Ana", "Netflix", CalendarDate(2024, 1, 10), "", Wrappers.None), today)
         == "Hola " + "Ana" + ", tu suscripción de " + "Netflix" + " "
            + "se venció el " + "10/01/2024"
            + ". Por favor, renueva para continuar disfrutando del servicio. ¡Gracias!"
  {
    var a := Account(1, "Ana", "Netflix", CalendarDate(2024, 1, 10), "", Wrappers.None);
    assert IsExpired(a, today);
    FormatExample();
    var msg := GenerateMessage(a, today);
    assert msg == Greeting(a) + EXPIRED_VERB + FormatDate(a.expirationDate) + EXPIRED_CLOSING;
  }
}
