/** The display helpers of the token-management page: the remaining-lifetime
    badge, the reason an expired token went away, the one-line description of
    a token's resources, and the usage alarm. They only compute strings from
    the rows the service returns. */
module TokenManagerView {
  import opened Text
  import opened Tokens

  const Day: int := 86400
  const Hour: int := 3600
  const Minute: int := 60

  const Success: string := "bg-success"
  const Warning: string := "bg-warning"
  const Danger: string := "bg-danger"
  const Info: string := "bg-info"
  const TextMuted: string := "text-muted"

  /** A Bootstrap badge: its colour class and its text. */
  datatype Badge = Badge(cssClass: string, text: string)

  /** The badge as the page writes it into a table cell. */
  function RenderBadge(b: Badge): string {
    "<span class=\"badge " + b.cssClass + "\">" + b.text + "</span>"
  }

  datatype Duration = Duration(days: int, hours: int, minutes: int)

  /** A whole number of seconds split into whole days, hours of the day and
      minutes of the hour; the seconds left over are fewer than a minute. */
  function SplitDuration(seconds: int): (d: Duration)
    requires seconds >= 0
    ensures d.days >= 0 && 0 <= d.hours < 24 && 0 <= d.minutes < 60
    ensures d.days * Day + d.hours * Hour + d.minutes * Minute <= seconds
    ensures seconds < d.days * Day + d.hours * Hour + d.minutes * Minute + Minute
  {
    var days := seconds / Day;
    var inDay := seconds % Day;
    var hours := inDay / Hour;
    var inHour := inDay % Hour;
    assert seconds == days * Day + hours * Hour + inHour;
    assert seconds == (days * 24 + hours) * Hour + inHour;
    assert seconds % Hour == inHour;
    Duration(days, hours, (seconds % Hour) / Minute)
  }

  /** `formatDuration`: negative means expired; otherwise days and hours from
      one day on, hours and minutes from one hour on, minutes below that. The
      colour is green above a day, orange above an hour, red from an hour down. */
  function DurationBadge(seconds: int): (b: Badge)
    ensures seconds < 0 ==> b == Badge(Danger, "Expiré")
    ensures seconds >= 0 ==> (b.cssClass == Success <==> seconds > Day)
    ensures seconds >= 0 ==> (b.cssClass == Warning <==> Hour < seconds <= Day)
    ensures seconds >= 0 ==> (b.cssClass == Danger <==> seconds <= Hour)
    ensures seconds >= Day ==>
              var d := SplitDuration(seconds); b.text == IntToString(d.days) + "j " + IntToString(d.hours) + "h"
    ensures Hour <= seconds < Day ==>
              var d := SplitDuration(seconds); d.days == 0 && b.text == IntToString(d.hours) + "h " + IntToString(d.minutes) + "m"
    ensures 0 <= seconds < Hour ==>
              var d := SplitDuration(seconds); d.days == 0 && d.hours == 0 && b.text == IntToString(d.minutes) + "m"
  {
    if seconds < 0 then Badge(Danger, "Expiré")
    else
      var d := SplitDuration(seconds);
      var text :=
        if d.days > 0 then IntToString(d.days) + "j " + IntToString(d.hours) + "h"
        else if d.hours > 0 then IntToString(d.hours) + "h " + IntToString(d.minutes) + "m"
        else IntToString(d.minutes) + "m";
      var cssClass := if seconds > Day then Success else if seconds > Hour then Warning else Danger;
      Badge(cssClass, text)
  }

  /** The badge as HTML: a span whose class carries the colour. */
  function FormatDuration(seconds: int): (html: string)
    ensures html == RenderBadge(DurationBadge(seconds))
    ensures seconds < 0 ==> html == "<span class=\"badge " + Danger + "\">" + "Expiré" + "</span>"
    ensures seconds > Day ==> StartsWith(html, "<span class=\"badge " + Success + "\">")
    ensures Hour < seconds <= Day ==> StartsWith(html, "<span class=\"badge " + Warning + "\">")
    ensures 0 <= seconds <= Hour ==> StartsWith(html, "<span class=\"badge " + Danger + "\">")
    ensures EndsWith(html, "</span>")
  {
    var b := DurationBadge(seconds);
    var head := "<span class=\"badge " + b.cssClass + "\">";
    ConcatStartsAndEnds(head, b.text + "</span>");
    ConcatStartsAndEnds(head + b.text, "</span>");
    assert head + b.text + "</span>" == head + (b.text + "</span>");
    RenderBadge(b)
  }

  /** `getExpirationReason`: an exhausted use counter wins over elapsed time,
      and a token with uses and time left can only have been revoked. */
  function ExpirationReason(currentUses: int, maxUses: int, remainingSeconds: int): (b: Badge)
    ensures currentUses >= maxUses ==> b == Badge(Warning, "Limite atteinte")
    ensures currentUses < maxUses && remainingSeconds <= 0 ==> b == Badge(Info, "Temps écoulé")
    ensures currentUses < maxUses && remainingSeconds > 0 ==> b == Badge(Danger, "Révoqué")
  {
    if currentUses >= maxUses then Badge(Warning, "Limite atteinte")
    else if remainingSeconds <= 0 then Badge(Info, "Temps écoulé")
    else Badge(Danger, "Révoqué")
  }

  /** JavaScript's `value || fallback` on a property of a resource object:
      an absent or empty string falls through. */
  function PropertyOr(r: Resource, key: string, fallback: string): (v: string)
    ensures key in r && r[key] != "" ==> v == r[key]
    ensures !(key in r && r[key] != "") ==> v == fallback
  {
    if key in r && r[key] != "" then r[key] else fallback
  }

  /** The identifier shown for a resource: its DICOM UID, else its Orthanc id,
      else "N/A"; never empty. */
  function DisplayedId(r: Resource): (id: string)
    ensures id != ""
    ensures "DicomUid" in r && r["DicomUid"] != "" ==> id == r["DicomUid"]
    ensures !("DicomUid" in r && r["DicomUid"] != "") && "OrthancId" in r && r["OrthancId"] != "" ==>
              id == r["OrthancId"]
    ensures !("DicomUid" in r && r["DicomUid"] != "") && !("OrthancId" in r && r["OrthancId"] != "") ==>
              id == "N/A"
  {
    PropertyOr(r, "DicomUid", PropertyOr(r, "OrthancId", "N/A"))
  }

  datatype ResourceLabel = NoResource | Label(level: string, id: string)

  /** `getResourceDescription`: only the first resource is described, by its
      level (study when unset) in capitals and the first 16 characters of
      its identifier. */
  function ResourceLabelOf(resources: seq<Resource>): (l: ResourceLabel)
    ensures resources == [] <==> l == NoResource
    ensures resources != [] ==>
              && l.level == ToUpper(PropertyOr(resources[0], "Level", "study"))
              && |l.id| == (if |DisplayedId(resources[0])| < 16 then |DisplayedId(resources[0])| else 16)
              && StartsWith(DisplayedId(resources[0]), l.id)
              && (|DisplayedId(resources[0])| <= 16 ==> l.id == DisplayedId(resources[0]))
  {
    if resources == [] then NoResource
    else Label(ToUpper(PropertyOr(resources[0], "Level", "study")), Take(DisplayedId(resources[0]), 16))
  }

  /** The description is the same whatever follows the first resource. */
  lemma OnlyFirstResourceDescribed(first: Resource, rest1: seq<Resource>, rest2: seq<Resource>)
    ensures ResourceLabelOf([first] + rest1) == ResourceLabelOf([first] + rest2)
  {
  }

  /** The description as HTML: muted small text `LEVEL: id...`. */
  function GetResourceDescription(resources: seq<Resource>): (html: string)
    ensures resources == [] ==> html == "Aucune ressource"
    ensures resources != [] ==>
              var l := ResourceLabelOf(resources);
              StartsWith(html, "<small class=\"" + TextMuted + "\">" + l.level + ": " + l.id)
              && EndsWith(html, "...</small>")
              && |html| == |"<small class=\"" + TextMuted + "\">" + l.level + ": " + l.id| + |"...</small>"|
  {
    match ResourceLabelOf(resources)
    case NoResource => "Aucune ressource"
    case Label(level, id) =>
      var head := "<small class=\"" + TextMuted + "\">" + level + ": " + id;
      ConcatStartsAndEnds(head, "...</small>");
      head + "...</small>"
  }

  /** More than ten uses per hour over `elapsed` seconds, counting at least one
      hour: `uses / max(elapsed / 3600, 1) > 10` with the division cleared. */
  predicate RateAboveTen(uses: int, elapsed: int) {
    uses * Hour > 10 * (if elapsed > Hour then elapsed else Hour)
  }

  /** `isSuspiciousUsage`, in whole seconds: more than ten uses per hour
      elapsed (counting at least one hour), or fifty uses or more within four
      hours. A token with no creation time or no use yet is never suspicious. */
  function IsSuspiciousUsage(createdAt: int, currentUses: int, now: int): (suspicious: bool)
    ensures createdAt == 0 || currentUses == 0 ==> !suspicious
    ensures suspicious ==> currentUses > 0
    ensures createdAt != 0 && currentUses >= 50 && now - createdAt < 4 * Hour ==> suspicious
    ensures createdAt != 0 && RateAboveTen(currentUses, now - createdAt) ==> suspicious
    ensures suspicious ==>
              RateAboveTen(currentUses, now - createdAt) || (currentUses >= 50 && now - createdAt < 4 * Hour)
  {
    if createdAt == 0 || currentUses == 0 then false
    else
      var elapsed := now - createdAt;
      RateAboveTen(currentUses, elapsed) || (currentUses >= 50 && elapsed < 4 * Hour)
  }
}
