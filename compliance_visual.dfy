/** The keyword classifier behind the compliance banner: from the user's query it
    picks four labelled badges, the first two chosen by the first matching topic. */
module ComplianceVisual {
  import opened Text

  /** The icon a badge shows. */
  datatype Icon = ShieldAlt | Lock | FileContract | BalanceScale | CheckCircle | Database | UserShield

  /** One badge: its icon, its gradient colour classes and its label. */
  datatype Badge = Badge(icon: Icon, color: string, text: string)

  const Blue: string := "from-blue-500 to-blue-700"
  const Gray: string := "from-gray-600 to-gray-800"
  const Green: string := "from-green-500 to-green-700"
  const Purple: string := "from-purple-500 to-purple-700"

  /** The badges shown when the query names no topic. */
  const Defaults: seq<Badge> := [
    Badge(ShieldAlt, Blue, "Security"),
    Badge(Lock, Gray, "Privacy"),
    Badge(FileContract, Green, "Compliance"),
    Badge(BalanceScale, Purple, "Regulations")
  ]

  /** The topics the classifier recognises, in the order it tries them. */
  datatype Topic = GdprTopic | IsoTopic | DataTopic | NoTopic

  /** The first topic whose keywords occur in the lower-cased query:
      "gdpr"/"privacy", then "iso"/"27001", then "data"/"storage". */
  function TopicOf(lower: string): (t: Topic)
    ensures t == GdprTopic <==> Includes(lower, "gdpr") || Includes(lower, "privacy")
    ensures t == IsoTopic <==>
      !(Includes(lower, "gdpr") || Includes(lower, "privacy")) && (Includes(lower, "iso") || Includes(lower, "27001"))
    ensures t == NoTopic <==>
      !Includes(lower, "gdpr") && !Includes(lower, "privacy") && !Includes(lower, "iso")
      && !Includes(lower, "27001") && !Includes(lower, "data") && !Includes(lower, "storage")
  {
    if Includes(lower, "gdpr") || Includes(lower, "privacy") then GdprTopic
    else if Includes(lower, "iso") || Includes(lower, "27001") then IsoTopic
    else if Includes(lower, "data") || Includes(lower, "storage") then DataTopic
    else NoTopic
  }

  function Labels(badges: seq<Badge>): seq<string> {
    seq(|badges|, i requires 0 <= i < |badges| => badges[i].text)
  }

  /** The badges for a query (their `text` is the label shown): always four; the last two are always the default
      Compliance and Regulations badges; the first two are GDPR/Privacy,
      ISO/Certification, Data/Security or the defaults Security/Privacy, by topic. */
  function GetComplianceIcons(query: string): (r: seq<Badge>)
    ensures |r| == 4
    ensures r[2..] == Defaults[2..]
    ensures Labels(r[2..]) == ["Compliance", "Regulations"]
    ensures var topic := TopicOf(ToLower(query));
      Labels(r[..2]) == match topic
        case GdprTopic => ["GDPR", "Privacy"]
        case IsoTopic => ["ISO", "Certification"]
        case DataTopic => ["Data", "Security"]
        case NoTopic => ["Security", "Privacy"]
  {
    var lower := ToLower(query);
    var icons := Defaults;
    var r := match TopicOf(lower)
      case GdprTopic => [Badge(UserShield, Blue, "GDPR"), Badge(Lock, Gray, "Privacy")] + icons[2..]
      case IsoTopic => [Badge(ShieldAlt, Blue, "ISO"), Badge(CheckCircle, Green, "Certification")] + icons[2..]
      case DataTopic => [Badge(Database, Blue, "Data"), Badge(Lock, Gray, "Security")] + icons[2..]
      case NoTopic => icons;
    assert r[..2] == [r[0], r[1]] && r[2..] == [r[2], r[3]];
    r
  }

  /** Matching ignores case: a query and its lower-cased form get the same badges. */
  lemma MatchingIgnoresCase(query: string)
    ensures GetComplianceIcons(query) == GetComplianceIcons(ToLower(query))
  {
    ToLowerIdempotent(query);
  }

  /** A topic keyword outranks every later one: a query mentioning both GDPR and ISO
      gets the GDPR badges. */
  lemma GdprOutranksIso(query: string)
    requires Includes(ToLower(query), "gdpr")
    ensures Labels(GetComplianceIcons(query)[..2]) == ["GDPR", "Privacy"]
  {
  }

  /** A query that mentions no topic keyword, in any case, shows the default badges. */
  lemma NoKeywordShowsDefaults(query: string)
    requires TopicOf(ToLower(query)) == NoTopic
    ensures GetComplianceIcons(query) == Defaults
  {
  }

  /** An empty query mentions no keyword, so it shows the default badges. */
  lemma EmptyQueryShowsDefaults()
    ensures GetComplianceIcons("") == Defaults
  {
    assert ToLower("") == "";
    assert TopicOf("") == NoTopic;
    NoKeywordShowsDefaults("");
  }

  /** Every badge row shows four different labels. */
  lemma LabelsDistinct(query: string)
    ensures var r := GetComplianceIcons(query);
      forall i, j :: 0 <= i < j < 4 ==> r[i].text != r[j].text
  {
    var r := GetComplianceIcons(query);
    assert Labels(r[..2])[0] == r[0].text && Labels(r[..2])[1] == r[1].text;
    assert Labels(r[2..])[0] == r[2].text && Labels(r[2..])[1] == r[3].text;
  }
}
