/**
 * The "your contribution" panel of the home page (js/community-impact.js): which of the
 * three views it shows, the lenient storage reads, and the label and emoji lookups.
 */
module Community {
  import opened Common
  import opened Storage
  import Directory
  import MapModal
  import Auth

  /**
   * This page's `getCurrentUser` and `getLastContribution`: the stored record, or null when
   * the entry is absent or does not parse.
   */
  function ReadEntry<T>(slot: Slot<T>): (v: Option<T>)
    ensures v.Some? <==> slot.Holds?
    ensures v.Some? ==> v.value == slot.value
  {
    match slot
    case Holds(x) => Some(x)
    case _ => None
  }

  /**
   * The lenient reader agrees with the session module's reader wherever that one returns,
   * and turns its parse error into "nobody".
   */
  lemma ReadUserAgreesWithAuth(slot: Slot<User>)
    ensures !slot.Unreadable? ==> Auth.CurrentUser(slot) == Returns(ReadEntry(slot))
    ensures slot.Unreadable? ==> Auth.CurrentUser(slot) == Throws && ReadEntry(slot) == None
  {
  }

  /** The `labels` table of `formatWasteType`. */
  const Labels: map<string, string> :=
    map["plastik" := "Plastik", "elektronik" := "Elektronik", "organik" := "Organik", "kertas" := "Kertas"]

  /** `formatWasteType`: the capitalised label of a listed type, any other text unchanged. */
  function FormatWasteType(t: string): (shown: string)
    ensures t in Labels ==> shown == MapModal.CapitalizeFirst(t) && shown != t
    ensures t !in Labels ==> shown == t
  {
    if t in Labels then Labels[t] else t
  }

  /** Formatting a label again changes nothing: no label is itself a key. */
  lemma FormatWasteTypeIdempotent(t: string)
    ensures FormatWasteType(FormatWasteType(t)) == FormatWasteType(t)
  {
  }

  /** The `wasteTypeEmoji` lookup with its trash-can fallback. */
  function WasteTypeEmoji(t: string): (e: string)
    ensures e == MapModal.MarkerStyleFor(t).icon
    ensures !Directory.KnownCategory(t) ==> e == MapModal.TrashIcon
  {
    if t == "plastik" then MapModal.PlasticIcon
    else if t == "elektronik" then MapModal.ElectronicIcon
    else if t == "organik" then MapModal.OrganicIcon
    else MapModal.TrashIcon
  }

  /** What the panel shows. */
  datatype View =
    | LoginPrompt
    | NoContribution
    | ContributionCard(emoji: string, typeLabel: string, weight: real, points: real, co2: real,
                       location: string, timestamp: string)

  /**
   * `displayUserContribution`: the login prompt without a readable user whatever is stored,
   * the empty message without a readable contribution, otherwise the card built from the
   * stored record.
   */
  function DisplayUserContribution(user: Slot<User>, contribution: Slot<Contribution>): (v: View)
    ensures v == LoginPrompt <==> !user.Holds?
    ensures v == NoContribution <==> user.Holds? && !contribution.Holds?
    ensures v.ContributionCard? ==>
      (contribution.Holds?
       && var c := contribution.value;
          v == ContributionCard(WasteTypeEmoji(c.wasteType), FormatWasteType(c.wasteType), c.weight, c.points,
                                c.co2, c.location, c.timestamp))
  {
    match ReadEntry(user)
    case None => LoginPrompt
    case Some(_) =>
      match ReadEntry(contribution)
      case None => NoContribution
      case Some(c) =>
        ContributionCard(WasteTypeEmoji(c.wasteType), FormatWasteType(c.wasteType), c.weight, c.points,
                         c.co2, c.location, c.timestamp)
  }
}
