/**
 * The public event catalog: the event and category types, the nine mock
 * events, the ordered category list and the category badge colours.
 */
module MockEvents {
  import opened Wrappers

  datatype Category = Wedding | Conference | Birthday | Corporate | Networking | Workshop | Concert | Charity

  /** The category's string value, as events carry it and as the filter buttons show it. */
  function CategoryName(c: Category): string {
    match c
    case Wedding => "Wedding"
    case Conference => "Conference"
    case Birthday => "Birthday"
    case Corporate => "Corporate"
    case Networking => "Networking"
    case Workshop => "Workshop"
    case Concert => "Concert"
    case Charity => "Charity"
  }

  /** A calendar date; the catalog writes it as an ISO `YYYY-MM-DD` string. */
  datatype Date = Date(year: nat, month: nat, day: nat)

  /** A number that orders valid dates as the calendar does (what the date comparator compares). */
  function DateKey(d: Date): int {
    d.year * 10000 + d.month * 100 + d.day
  }

  datatype Location = Location(venue: string, address: string, city: string)
  datatype Host = Host(name: string, avatar: Option<string>)

  /** `featured` absent is `false`. */
  datatype Event = Event(
    id: string, title: string, description: string, category: Category,
    date: Date, time: string, location: Location, host: Host,
    attendeeCount: nat, maxAttendees: Option<nat>, imageUrl: string, featured: bool)

  // The nine mock events, in catalog order.
  const MockEvent1: Event := Event("1", "Sarah & Michael's Wedding Celebration",
      "Join us for a beautiful garden wedding ceremony followed by an elegant reception. Celebrate love, laughter, and happily ever after with the happy couple.",
      Wedding, Date(2025, 11, 15), "4:00 PM",
      Location("Rosewood Garden Estate", "1234 Bloom Street", "San Francisco, CA"), Host("Sarah Johnson", None),
      156, Some(200), "/images/events/wedding.svg", true)

  const MockEvent2: Event := Event("2", "TechConf 2025: Future of AI",
      "A premier technology conference bringing together industry leaders, innovators, and developers to explore the latest in artificial intelligence and machine learning.",
      Conference, Date(2025, 11, 8), "9:00 AM",
      Location("Convention Center West", "789 Innovation Drive", "Austin, TX"), Host("TechEvents Inc.", None),
      487, Some(500), "/images/events/conference.svg", true)

  const MockEvent3: Event := Event("3", "Emma's 30th Birthday Bash",
      "Celebrate three decades of amazing memories! Join us for an unforgettable evening of music, dancing, and celebration.",
      Birthday, Date(2025, 11, 22), "7:00 PM",
      Location("The Loft Downtown", "456 Party Avenue", "Los Angeles, CA"), Host("Emma Rodriguez", None),
      78, Some(100), "/images/events/birthday.svg", true)

  const MockEvent4: Event := Event("4", "Startup Founders Networking Night",
      "Connect with fellow entrepreneurs, investors, and innovators. Share ideas, build relationships, and discover opportunities in an intimate networking environment.",
      Networking, Date(2025, 11, 5), "6:30 PM",
      Location("Innovation Hub", "321 Startup Lane", "Seattle, WA"), Host("Seattle Founders Network", None),
      124, Some(150), "/images/events/networking.svg", false)

  const MockEvent5: Event := Event("5", "Annual Charity Gala for Education",
      "An elegant evening supporting educational programs for underprivileged children. Enjoy fine dining, live entertainment, and make a difference in young lives.",
      Charity, Date(2025, 12, 10), "6:00 PM",
      Location("Grand Ballroom Hotel", "555 Charity Boulevard", "New York, NY"), Host("Education First Foundation", None),
      312, Some(400), "/images/events/charity.svg", true)

  const MockEvent6: Event := Event("6", "Web Design Workshop: Modern UI/UX",
      "Hands-on workshop covering the latest trends in web design, user experience principles, and practical tips for creating stunning interfaces.",
      Workshop, Date(2025, 11, 12), "10:00 AM",
      Location("Design Studio Co.", "888 Creative Street", "Portland, OR"), Host("Design Masters", None),
      45, Some(50), "/images/events/workshop.svg", false)

  const MockEvent7: Event := Event("7", "Q4 Corporate Team Building Retreat",
      "Strengthen team bonds and boost morale with exciting activities, leadership workshops, and collaborative challenges in a beautiful outdoor setting.",
      Corporate, Date(2025, 11, 18), "8:00 AM",
      Location("Mountain Ridge Resort", "777 Summit Road", "Denver, CO"), Host("Innovate Corp", None),
      89, Some(100), "/images/events/corporate.svg", false)

  const MockEvent8: Event := Event("8", "Summer Music Festival 2025",
      "Three days of incredible live music featuring top artists across multiple genres. Food trucks, art installations, and unforgettable performances.",
      Concert, Date(2025, 12, 1), "2:00 PM",
      Location("Riverside Amphitheater", "999 Music Way", "Nashville, TN"), Host("Live Nation Events", None),
      2847, Some(5000), "/images/events/concert.svg", true)

  const MockEvent9: Event := Event("9", "Product Launch: NextGen Smart Home",
      "Be the first to experience our revolutionary smart home technology. Live demos, exclusive previews, and special launch pricing for attendees.",
      Corporate, Date(2025, 11, 25), "5:00 PM",
      Location("Tech Showroom", "123 Innovation Plaza", "San Jose, CA"), Host("SmartHome Technologies", None),
      234, Some(300), "/images/events/product-launch.svg", false)

  const Events: seq<Event> :=
    [MockEvent1, MockEvent2, MockEvent3, MockEvent4, MockEvent5, MockEvent6, MockEvent7, MockEvent8, MockEvent9]

  const EventCategories: seq<Category> :=
    [Wedding, Conference, Birthday, Corporate, Networking, Workshop, Concert, Charity]

  /**
   * The badge classes for a category. Every entry of the colour table follows one
   * pattern over a colour word; only the dark-mode background and border shades
   * of Corporate differ from the rest. `BadgeClasses` over `Tone` spells out each
   * of the eight entries of `getCategoryColor` (src/lib/mock-events.ts:235-242)
   * character for character; the table is written as this pattern because the
   * lemmas below reason about its parts.
   */
  function CategoryColor(c: Category): (r: string)
    ensures r != ""
  {
    if c == Corporate then BadgeClasses(Tone(c), "800/50", "700")
    else BadgeClasses(Tone(c), "900/30", "800")
  }

  /** The colour word of a category's badge. */
  function Tone(c: Category): (t: string)
    ensures |t| >= 2
  {
    match c
    case Wedding => "pink"
    case Conference => "blue"
    case Birthday => "purple"
    case Corporate => "slate"
    case Networking => "green"
    case Workshop => "amber"
    case Concert => "red"
    case Charity => "teal"
  }

  function BadgeClasses(tone: string, darkBg: string, darkBorder: string): string {
    "bg-" + tone + BadgeTail(tone, darkBg, darkBorder)
  }

  /** The classes after the light-mode background class. */
  function BadgeTail(tone: string, darkBg: string, darkBorder: string): string {
    "-100 text-" + tone + "-700 border-" + tone + "-200 dark:bg-" + tone + "-" + darkBg
      + " dark:text-" + tone + "-300 dark:border-" + tone + "-" + darkBorder
  }

  /** A badge's classes begin with the background class of its colour word. */
  lemma BadgeBeginsWithTone(tone: string, darkBg: string, darkBorder: string)
    ensures var r := BadgeClasses(tone, darkBg, darkBorder);
            |r| > 3 + |tone| && r[..3 + |tone|] == "bg-" + tone
  {
    var head, tail := "bg-" + tone, BadgeTail(tone, darkBg, darkBorder);
    assert (head + tail)[..|head|] == head;
  }

  /** The category list holds every category exactly once. */
  lemma CategoriesListedOnce()
    ensures |EventCategories| == 8
    ensures forall c: Category :: c in EventCategories
    ensures forall i, j :: 0 <= i < j < |EventCategories| ==> EventCategories[i] != EventCategories[j]
  {
    forall c: Category ensures c in EventCategories {
      var i := match c
        case Wedding => 0 case Conference => 1 case Birthday => 2 case Corporate => 3
        case Networking => 4 case Workshop => 5 case Concert => 6 case Charity => 7;
      assert EventCategories[i] == c;
    }
  }

  /** Distinct categories get distinct badge colours. */
  lemma ColorsAreDistinct(c: Category, d: Category)
    requires c != d
    ensures CategoryColor(c) != CategoryColor(d)
  {
    // The colour word starts at index 3; its first two characters tell the eight apart.
    ColorNamesCategory(c);
    ColorNamesCategory(d);
  }

  /** Which category a colour word begins with, by its first two letters. */
  function CategoryOfInitials(a: char, b: char): Option<Category> {
    match (a, b)
    case ('p', 'i') => Some(Wedding)
    case ('b', 'l') => Some(Conference)
    case ('p', 'u') => Some(Birthday)
    case ('s', 'l') => Some(Corporate)
    case ('g', 'r') => Some(Networking)
    case ('a', 'm') => Some(Workshop)
    case ('r', 'e') => Some(Concert)
    case ('t', 'e') => Some(Charity)
    case _ => None
  }

  lemma ColorNamesCategory(c: Category)
    ensures |CategoryColor(c)| > 4 && CategoryOfInitials(CategoryColor(c)[3], CategoryColor(c)[4]) == Some(c)
  {
    var r := CategoryColor(c);
    if c == Corporate {
      BadgeBeginsWithTone(Tone(c), "800/50", "700");
    } else {
      BadgeBeginsWithTone(Tone(c), "900/30", "800");
    }
    assert r[..3 + |Tone(c)|] == "bg-" + Tone(c);
    assert r[3] == Tone(c)[0] && r[4] == Tone(c)[1];
  }

  /** No two catalog events share an id. */
  lemma IdsAreDistinct()
    ensures forall i, j :: 0 <= i < j < |Events| ==> Events[i].id != Events[j].id
  {
  }

  /** No catalog event with a capacity is over it. */
  lemma WithinCapacity()
    ensures forall i :: 0 <= i < |Events| && Events[i].maxAttendees.Some? ==>
      Events[i].attendeeCount <= Events[i].maxAttendees.value
  {
  }

  /** Catalog dates are valid calendar dates and no two events share a date. */
  lemma DatesAreValidAndDistinct()
    ensures forall i :: 0 <= i < |Events| ==> 1 <= Events[i].date.month <= 12 && 1 <= Events[i].date.day <= 31
    ensures forall i, j :: 0 <= i < j < |Events| ==> DateKey(Events[i].date) != DateKey(Events[j].date)
  {
  }

  /** The catalog's size, its first three ids, and which of its events are featured. */
  lemma CatalogFacts()
    ensures |Events| == 9
    ensures Events[0].id == "1" && Events[1].id == "2" && Events[2].id == "3"
    ensures Events[0].featured && Events[1].featured && Events[2].featured
    ensures forall i :: 0 <= i < |Events| ==> (Events[i].featured <==> i in {0, 1, 2, 4, 7})
  {
  }
}
