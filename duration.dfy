/**
 * The two game-duration displays of the report page: the whole minutes
 * (`getGameDurationMin`) and the two-digit seconds field next to them.
 * A duration is a whole number of seconds, as stored in the match table.
 */
module Duration {
  import opened Text

  /**
   * The duration rounded to the nearest minute, a leftover of exactly half
   * a minute rounding down: the unique m with 60m - 30 < d <= 60m + 30.
   */
  function MinutesRounded(d: nat): (m: nat)
    ensures 60 * m - 30 < d <= 60 * m + 30
  {
    (d + 29) / 60
  }

  /** The characterisation above singles out one minute count. */
  lemma NearestMinuteUnique(d: nat, m: nat, m': nat)
    requires 60 * m - 30 < d <= 60 * m + 30
    requires 60 * m' - 30 < d <= 60 * m' + 30
    ensures m == m'
  {
  }

  /**
   * `getGameDurationMin`: whole minutes plus one when more than 30 seconds
   * are left over.
   */
  method GetGameDurationMin(duration: nat) returns (minute: nat)
    ensures minute == MinutesRounded(duration)
  {
    minute := duration / 60;
    var second := duration % 60;
    if second > 30 {
      minute := minute + 1;
    }
  }

  /**
   * The rounded minutes are the floored minutes, plus one exactly when the
   * leftover exceeds 30 seconds; so they are d / 60 or d / 60 + 1.
   */
  lemma MinutesRoundedByRemainder(d: nat)
    ensures MinutesRounded(d) == d / 60 + (if d % 60 > 30 then 1 else 0)
    ensures MinutesRounded(d) == d / 60 || MinutesRounded(d) == d / 60 + 1
  {
  }

  /** A leftover of exactly 30 seconds rounds down, 31 rounds up. */
  lemma RoundingBoundary(q: nat)
    ensures MinutesRounded(60 * q + 30) == q
    ensures MinutesRounded(60 * q + 31) == q + 1
  {
  }

  /** More seconds never give fewer minutes. */
  lemma MinutesRoundedMonotone(d: nat, d': nat)
    requires d <= d'
    ensures MinutesRounded(d) <= MinutesRounded(d')
  {
  }

  /** `String(duration % 60).padStart(2, '0')`: the seconds past the whole minute. */
  function SecondsField(duration: nat): (s: string)
    ensures |s| == 2
    ensures AllDigits(s)
    ensures ParseDigits(s) == duration % 60
    ensures ParseDigits(s) < 60
  {
    Pad2(duration % 60)
  }

  /** Two durations show the same seconds field exactly when they agree modulo a minute. */
  lemma SecondsFieldDeterminesRemainder(d: nat, d': nat)
    ensures SecondsField(d) == SecondsField(d') <==> d % 60 == d' % 60
  {
  }
}
