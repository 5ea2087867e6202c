/** The card that shows one case request: how long ago it arrived, its status
    and urgency badges, and which controls it offers. */
module RequestCard {
  import opened Core
  import opened Types

  datatype TimeUnit = Years | Months | Days | Hours | Minutes | Seconds

  /** The length of a unit in seconds (a year is 365 days, a month 30). */
  function UnitSeconds(u: TimeUnit): nat {
    match u
    case Years => 31536000
    case Months => 2592000
    case Days => 86400
    case Hours => 3600
    case Minutes => 60
    case Seconds => 1
  }

  function UnitWord(u: TimeUnit): string {
    match u
    case Years => "years"
    case Months => "months"
    case Days => "days"
    case Hours => "hours"
    case Minutes => "minutes"
    case Seconds => "seconds"
  }

  /** `u` is tried before `v`. */
  predicate Coarser(u: TimeUnit, v: TimeUnit) {
    UnitSeconds(u) > UnitSeconds(v)
  }

  /** A relative age: `count` whole `unit`s. */
  datatype Ago = Ago(count: int, unit: TimeUnit)

  /** Whole seconds between two instants given in milliseconds, rounded down
      (towards minus infinity, so a timestamp in the future gives a negative count). */
  function ElapsedSeconds(nowMs: int, thenMs: int): (s: int)
    ensures 1000 * s <= nowMs - thenMs < 1000 * s + 1000
  {
    (nowMs - thenMs) / 1000
  }

  /** The unit and count timeAgo reports for an elapsed time in whole seconds:
      the first unit, from years down to minutes, of which strictly more than
      one has elapsed, counted in whole units; otherwise the seconds themselves. */
  function AgoFromSeconds(seconds: int): (r: Ago)
    ensures r.unit == Seconds <==> seconds <= 60
    ensures r.unit == Seconds ==> r.count == seconds
    ensures r.unit != Seconds ==>
      && seconds > UnitSeconds(r.unit)
      && r.count >= 1
      && UnitSeconds(r.unit) * r.count <= seconds < UnitSeconds(r.unit) * (r.count + 1)
    ensures forall u :: Coarser(u, r.unit) ==> seconds <= UnitSeconds(u)
  {
    if seconds > 31536000 then Ago(seconds / 31536000, Years)
    else if seconds > 2592000 then Ago(seconds / 2592000, Months)
    else if seconds > 86400 then Ago(seconds / 86400, Days)
    else if seconds > 3600 then Ago(seconds / 3600, Hours)
    else if seconds > 60 then Ago(seconds / 60, Minutes)
    else Ago(seconds, Seconds)
  }

  /** The text of `timeAgo(request.timestamp)` at instant `nowMs`. */
  function TimeAgo(nowMs: int, thenMs: int): string {
    var a := AgoFromSeconds(ElapsedSeconds(nowMs, thenMs));
    IntToDecimal(a.count) + " " + UnitWord(a.unit) + " ago"
  }

  /** The unit reported only ever gets finer as the elapsed time shrinks. */
  lemma AgoUnitMonotone(s: int, t: int)
    requires s <= t
    ensures UnitSeconds(AgoFromSeconds(s).unit) <= UnitSeconds(AgoFromSeconds(t).unit)
  {
  }

  /** Exact boundaries fall to the next smaller unit, and a future instant
      reads as a negative number of seconds. */
  lemma AgoBoundaries()
    ensures AgoFromSeconds(86400) == Ago(24, Hours)
    ensures AgoFromSeconds(60) == Ago(60, Seconds)
    ensures AgoFromSeconds(61) == Ago(1, Minutes)
    ensures AgoFromSeconds(31536000) == Ago(12, Months)
    ensures AgoFromSeconds(-5) == Ago(-5, Seconds)
  {
  }

  /** The rendered text at the day boundary. */
  lemma TimeAgoOneDay(nowMs: int)
    ensures TimeAgo(nowMs, nowMs - 86400000) == "24 hours ago"
  {
    assert ElapsedSeconds(nowMs, nowMs - 86400000) == 86400;
    AgoBoundaries();
    assert NatToDecimal(24) == NatToDecimal(2) + [DigitChar(4)] == "24";
  }

  /** The rendered text of a timestamp five seconds in the future. */
  lemma TimeAgoFuture(nowMs: int)
    ensures TimeAgo(nowMs, nowMs + 5000) == "-5 seconds ago"
  {
    assert ElapsedSeconds(nowMs, nowMs + 5000) == -5;
    AgoBoundaries();
    assert IntToDecimal(-5) == "-5";
  }

  datatype Tone = Green | Red | Amber | Sky

  /** A badge: its text, its colour and whether it pulses. */
  datatype Badge = Badge(text: string, tone: Tone, pulsing: bool)

  /** The status badge: one for each of the three status values, labelled with
      the value itself; nothing for any other value. */
  function StatusBadge(status: string): (b: Option<Badge>)
    ensures b.Some? <==> status == "Accepted" || status == "Rejected" || status == "Pending"
    ensures b.Some? ==> b.value.text == status && (b.value.pulsing <==> status == "Pending")
  {
    if status == "Accepted" then Some(Badge("Accepted", Green, false))
    else if status == "Rejected" then Some(Badge("Rejected", Red, false))
    else if status == "Pending" then Some(Badge("Pending", Amber, true))
    else None
  }

  /** The urgency badge: "<level> Urgency" for each of the three levels,
      nothing for any other value. */
  function UrgencyBadge(urgency: string): (b: Option<Badge>)
    ensures b.Some? <==> urgency == "High" || urgency == "Medium" || urgency == "Low"
    ensures b.Some? ==> b.value.text == urgency + " Urgency" && !b.value.pulsing
  {
    if urgency == "High" then Some(Badge("High Urgency", Red, false))
    else if urgency == "Medium" then Some(Badge("Medium Urgency", Amber, false))
    else if urgency == "Low" then Some(Badge("Low Urgency", Sky, false))
    else None
  }

  /** Different status values never share a badge, nor do different urgencies. */
  lemma BadgesDistinguishValues(a: string, b: string)
    requires a != b
    ensures StatusBadge(a).Some? ==> StatusBadge(a) != StatusBadge(b)
    ensures UrgencyBadge(a).Some? ==> UrgencyBadge(a) != UrgencyBadge(b)
  {
    if UrgencyBadge(a).Some? && UrgencyBadge(b).Some? {
      assert UrgencyBadge(a).value.text[0] == a[0];
      assert UrgencyBadge(b).value.text[0] == b[0];
    }
  }

  /** The card opens the chat only for an accepted request whose parent passed
      an `onOpenChat` callback. */
  predicate IsClickable(request: CaseRequest, hasOpenChat: bool) {
    request.status == "Accepted" && hasOpenChat
  }

  /** What a click on the card does: call `onOpenChat` with the request id, or nothing. */
  function ClickAction(request: CaseRequest, hasOpenChat: bool): (r: Option<string>)
    ensures r.Some? <==> request.status == "Accepted" && hasOpenChat
    ensures r.Some? ==> r.value == request.id
  {
    if IsClickable(request, hasOpenChat) then Some(request.id) else None
  }

  /** Reject and Accept are offered only for a pending request, and only when
      both callbacks were passed. */
  predicate ShowsDecisionButtons(request: CaseRequest, hasAccept: bool, hasReject: bool) {
    request.status == "Pending" && hasAccept && hasReject
  }

  /** A card is never both clickable and showing the Reject/Accept controls. */
  lemma ClickableAndDecisionExclusive(request: CaseRequest, hasOpenChat: bool, hasAccept: bool, hasReject: bool)
    ensures !(IsClickable(request, hasOpenChat) && ShowsDecisionButtons(request, hasAccept, hasReject))
  {
  }
}
