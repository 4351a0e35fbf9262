/**
 * The admin list's computed columns: the reminder label (`recordatorio`),
 * the expired flag (`is_expired_display`) and the row style (`get_row_css`).
 * The label and the style test "expired" before "expiring soon"; since the
 * expiring-soon predicate has no lower bound, that order is what keeps
 * expired accounts out of the middle case.
 */
module Admin {
  import opened Dates
  import opened Models
  import opened Queries
  import opened Views

  const EXPIRED_LABEL := "Vencida"
  const EXPIRING_SOON_LABEL := "¡Vence pronto!"
  const ACTIVE_LABEL := "Activa"

  const EXPIRED_ROW := "expired-row"
  const EXPIRING_SOON_ROW := "expiring-soon-row"
  const PLAIN_ROW := ""

  /** The look-ahead both admin columns pass to `is_expiring_soon`. */
  const ADMIN_DAYS := 7

  /**
   * `recordatorio`: "Vencida" for an expired account, "¡Vence pronto!" for
   * one due today or within seven days, "Activa" otherwise.
   */
  function Reminder(a: Account, today: Date): (r: string)
    ensures r == EXPIRED_LABEL <==> Before(a.expirationDate, today)
    ensures r == EXPIRING_SOON_LABEL <==> 0 <= DaysLeft(a, today) <= 7
    ensures r == ACTIVE_LABEL <==> DaysLeft(a, today) > 7
    ensures r == EXPIRED_LABEL || r == EXPIRING_SOON_LABEL || r == ACTIVE_LABEL
  {
    ExpiredMeansNoDaysLeft(a, today);
    if IsExpired(a, today) then EXPIRED_LABEL
    else if IsExpiringSoon(a, today, days := ADMIN_DAYS) then EXPIRING_SOON_LABEL
    else ACTIVE_LABEL
  }

  /** `is_expired_display`: the flag agrees with the reminder label. */
  function IsExpiredDisplay(a: Account, today: Date): (r: bool)
    ensures r <==> Reminder(a, today) == EXPIRED_LABEL
    ensures r <==> Before(a.expirationDate, today)
  {
    IsExpired(a, today)
  }

  /** `get_row_css`: one style per reminder label. */
  function RowCss(a: Account, today: Date): (r: string)
    ensures r == EXPIRED_ROW <==> Reminder(a, today) == EXPIRED_LABEL
    ensures r == EXPIRING_SOON_ROW <==> Reminder(a, today) == EXPIRING_SOON_LABEL
    ensures r == PLAIN_ROW <==> Reminder(a, today) == ACTIVE_LABEL
  {
    if IsExpired(a, today) then EXPIRED_ROW
    else if IsExpiringSoon(a, today, days := ADMIN_DAYS) then EXPIRING_SOON_ROW
    else PLAIN_ROW
  }

  /** The reminder label of an account names the listing bucket it is shown in. */
  lemma ReminderMatchesBucket(table: seq<Account>, today: Date, a: Account)
    requires UniqueIds(table)
    requires a in table
    ensures Reminder(a, today) == EXPIRED_LABEL <==> a in ExpiredBucket(table, today)
    ensures Reminder(a, today) == EXPIRING_SOON_LABEL <==> a in ExpiringSoonBucket(table, today)
    ensures Reminder(a, today) == ACTIVE_LABEL <==> a in OtherBucket(table, today)
  {
    OtherBucketMembers(table, today, a);
  }
}
