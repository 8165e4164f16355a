/** The coupon template tags (useradmin/templatetags/coupon_tags.py): the
    status badge, the status colour, the expiry test, the days left and the
    "filters applied" flag. Instants are whole microseconds on the clock
    `now` runs on. */
module CouponTags {
  import opened Common

  /** Microseconds in a day: a `timedelta`'s resolution and its day. */
  const MicrosPerDay: int := 86_400_000_000

  /** What a coupon's expiry can hold: a moment, a calendar day (the
      number of days since the clock's origin), or neither. */
  datatype Expiry = Moment(t: int) | Day(d: int) | NoDate

  /** The first instant of a day: `datetime.combine(day, time.min)`. */
  function StartOfDay(d: int): int
  {
    d * MicrosPerDay
  }

  /** The last instant of a day: `datetime.combine(day, time.max)`. */
  function EndOfDay(d: int): (e: int)
    ensures StartOfDay(d) < e < StartOfDay(d + 1)
  {
    d * MicrosPerDay + MicrosPerDay - 1
  }

  /** The three badges `coupon_status_badge` shows. */
  datatype Badge = BadgeActive | BadgeInactive | BadgeExpired

  /** `coupon_status_badge`: a day counts from its first instant; an
      expiry that is neither a moment nor a day makes the tag fail (None). */
  function StatusBadge(active: bool, expiry: Expiry, now: int): (b: Option<Badge>)
    ensures b.None? <==> expiry.NoDate?
    ensures b == Some(BadgeInactive) <==> !active && !expiry.NoDate?
    ensures b == Some(BadgeActive) ==> active && !IsExpired(expiry, now)
  {
    if expiry.NoDate? then None
    else
      var at := if expiry.Moment? then expiry.t else StartOfDay(expiry.d);
      if active && at > now then Some(BadgeActive)
      else if !active then Some(BadgeInactive)
      else Some(BadgeExpired)
  }

  /** The instant the filters compare with: a day counts up to its last
      instant. */
  function ExpiryInstant(expiry: Expiry): int
    requires !expiry.NoDate?
  {
    if expiry.Moment? then expiry.t else EndOfDay(expiry.d)
  }

  /** `is_coupon_expired`: the expiry has been reached; no date is never
      expired. */
  predicate IsExpired(expiry: Expiry, now: int)
    ensures expiry.NoDate? ==> !IsExpired(expiry, now)
    ensures expiry.Day? && now < EndOfDay(expiry.d) ==> !IsExpired(expiry, now)
  {
    !expiry.NoDate? && ExpiryInstant(expiry) <= now
  }

  /** `coupon_status_class`. */
  function StatusClass(active: bool, expiry: Expiry, now: int): (s: string)
    ensures s == "text-success" <==> active && !expiry.NoDate? && !IsExpired(expiry, now)
    ensures s == "text-danger" <==> active && IsExpired(expiry, now)
    ensures s == "text-secondary" <==> !active || expiry.NoDate?
  {
    if expiry.NoDate? then "text-secondary"
    else if active && ExpiryInstant(expiry) > now then "text-success"
    else if !active then "text-secondary"
    else "text-danger"
  }

  /** `days_until_expiry`: `(expiry - now).days`, the whole days rounded
      down; no date gives 0. */
  function DaysUntilExpiry(expiry: Expiry, now: int): (days: int)
    ensures expiry.NoDate? ==> days == 0
    ensures !expiry.NoDate? ==> days * MicrosPerDay <= ExpiryInstant(expiry) - now < (days + 1) * MicrosPerDay
  {
    if expiry.NoDate? then 0 else (ExpiryInstant(expiry) - now) / MicrosPerDay
  }

  /** `has_filters` of the empty-state and filter-indicator tags. */
  predicate HasFilters(searchQuery: string, statusFilter: string)
    ensures HasFilters(searchQuery, statusFilter) <==> |searchQuery| + |statusFilter| > 0
  {
    searchQuery != [] || statusFilter != []
  }

  /** Exactly one badge applies whenever there is a date: active when
      active and not yet expired, inactive whenever inactive (even past
      the expiry), expired otherwise. */
  lemma BadgeCases(active: bool, expiry: Expiry, now: int)
    ensures StatusBadge(active, expiry, now).None? <==> expiry.NoDate?
    ensures expiry.Moment? ==>
      (StatusBadge(active, expiry, now) == Some(BadgeActive) <==> active && expiry.t > now)
      && (StatusBadge(active, expiry, now) == Some(BadgeInactive) <==> !active)
      && (StatusBadge(active, expiry, now) == Some(BadgeExpired) <==> active && expiry.t <= now)
  {
  }

  /** For a moment the colour follows the badge: success for active,
      secondary for inactive, danger for expired; and an active badge
      means not expired. */
  lemma ClassMatchesBadge(active: bool, t: int, now: int)
    ensures var b := StatusBadge(active, Moment(t), now).value;
      StatusClass(active, Moment(t), now) ==
        (match b case BadgeActive => "text-success" case BadgeInactive => "text-secondary" case BadgeExpired => "text-danger")
      && (b == BadgeActive ==> !IsExpired(Moment(t), now))
      && (b == BadgeExpired ==> IsExpired(Moment(t), now))
  {
  }

  /** For a calendar day the badge counts from the day's first instant and
      the expiry test up to its last, so during the day itself an active
      coupon is shown as expired and yet is not expired, and is coloured
      as active. */
  lemma DayBadgeDisagrees(d: int, now: int)
    requires StartOfDay(d) <= now < EndOfDay(d)
    ensures StatusBadge(true, Day(d), now) == Some(BadgeExpired)
    ensures !IsExpired(Day(d), now)
    ensures StatusClass(true, Day(d), now) == "text-success"
  {
  }

  /** The days left are never negative before the expiry, at most 0 once
      expired, and negative once the expiry is strictly past; each day is
      a whole `MicrosPerDay` of the difference, rounded down. */
  lemma DaysUntilExpirySign(expiry: Expiry, now: int)
    requires !expiry.NoDate?
    ensures var days := DaysUntilExpiry(expiry, now);
      var left := ExpiryInstant(expiry) - now;
      days * MicrosPerDay <= left < (days + 1) * MicrosPerDay
      && (!IsExpired(expiry, now) ==> days >= 0)
      && (IsExpired(expiry, now) ==> days <= 0)
      && (left < 0 ==> days < 0)
  {
  }

  /** The empty-state and indicator tags show filters exactly when a
      search or a status filter is present. */
  lemma HasFiltersCases(searchQuery: string, statusFilter: string)
    ensures !HasFilters(searchQuery, statusFilter) <==> searchQuery == [] && statusFilter == []
    ensures HasFilters(searchQuery, []) <==> searchQuery != []
  {
  }
}
