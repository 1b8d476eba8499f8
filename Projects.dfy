/**
 * The project gallery: normalisation of the raw project records into the
 * shape the cards render, the width breakpoint that picks how many cards
 * show at first, the "show all" toggle, the visible list and its
 * "Showing N of M" label; and the standalone ShowMoreControls component,
 * which applies the same rule to a list it is given.
 */
module Projects {
  import opened Wrappers
  import Text
  import Viewport

  /** A project record as written in the gallery's data array; absent keys are `None`. */
  datatype RawProject = RawProject(
    title: string,
    description: string,
    technologies: Option<string>,
    githubLink: string,
    demoLink: string,
    image: Option<string>,
    featured: Option<bool>)

  /** The card category. */
  datatype Kind = Mobile | Web

  /** A project record in the shape the card renderer reads. */
  datatype Project = Project(
    title: string,
    description: string,
    tech: seq<string>,
    github: string,
    live: string,
    image: string,
    kind: Kind)

  /** The fallback image asset. */
  const DefaultImage: string := "image.png"

  /** The lower-case text whose presence marks a mobile project. */
  const MobileMarker: string := "react native"

  /** JavaScript truthiness of an optional string: present and not empty. */
  predicate Truthy(s: Option<string>) {
    s.Some? && s.value != ""
  }

  /**
   * The technology badges: the comma-separated pieces of the technology
   * string, each trimmed; nothing when the string is missing or empty.
   */
  function Tech(technologies: Option<string>): (tech: seq<string>)
    ensures !Truthy(technologies) ==> tech == []
    ensures Truthy(technologies) ==>
      |tech| == Text.Count(technologies.value, ',') + 1 &&
      forall i :: 0 <= i < |tech| ==> tech[i] == Text.Trim(Text.Split(technologies.value, ',')[i])
    ensures forall i :: 0 <= i < |tech| ==> ',' !in tech[i]
    ensures forall i :: 0 <= i < |tech| ==>
      tech[i] == [] || (!Text.IsWhitespace(tech[i][0]) && !Text.IsWhitespace(tech[i][|tech[i]| - 1]))
  {
    if Truthy(technologies) then
      var pieces := Text.Split(technologies.value, ',');
      var tech := seq(|pieces|, i requires 0 <= i < |pieces| => Text.Trim(pieces[i]));
      assert forall i :: 0 <= i < |tech| ==> ',' !in tech[i] by {
        forall i | 0 <= i < |tech| ensures ',' !in tech[i] {
          Text.TrimIsPart(pieces[i]);
        }
      }
      tech
    else []
  }

  /** The card category: `Mobile` exactly when the lower-cased technology string mentions React Native. */
  function KindOf(technologies: Option<string>): (k: Kind)
    ensures k == Mobile <==>
      Truthy(technologies) && exists i :: Text.OccursAt(Text.ToLower(technologies.value), MobileMarker, i)
  {
    if Truthy(technologies) && Text.Includes(Text.ToLower(technologies.value), MobileMarker) then Mobile else Web
  }

  /** The image to show: the record's own image unless it is missing or empty. */
  function ImageOf(image: Option<string>): (r: string)
    ensures Truthy(image) ==> r == image.value
    ensures !Truthy(image) ==> r == DefaultImage
  {
    if Truthy(image) then image.value else DefaultImage
  }

  /** One record normalised. */
  function Normalize(p: RawProject): (q: Project)
    ensures q.title == p.title && q.description == p.description
    ensures q.github == p.githubLink && q.live == p.demoLink
    ensures q.tech == Tech(p.technologies) && q.kind == KindOf(p.technologies)
    ensures q.image == ImageOf(p.image)
  {
    Project(p.title, p.description, Tech(p.technologies), p.githubLink, p.demoLink,
            ImageOf(p.image), KindOf(p.technologies))
  }

  /** The whole list normalised, element by element, keeping length and order. */
  function NormalizeAll(ps: seq<RawProject>): (qs: seq<Project>)
    ensures |qs| == |ps|
    ensures forall i :: 0 <= i < |ps| ==> qs[i] == Normalize(ps[i])
  {
    seq(|ps|, i requires 0 <= i < |ps| => Normalize(ps[i]))
  }

  /** Normalisation commutes with concatenation, so it keeps the relative order of records. */
  lemma NormalizeAllConcat(a: seq<RawProject>, b: seq<RawProject>)
    ensures NormalizeAll(a + b) == NormalizeAll(a) + NormalizeAll(b)
  {
  }

  /** Classification reads the technology string case-insensitively. */
  lemma KindOfIgnoresCase(s: string)
    ensures KindOf(Some(Text.ToLower(s))) == KindOf(Some(s))
  {
    var l := Text.ToLower(s);
    assert Text.ToLower(l) == l by {
      forall i | 0 <= i < |l| ensures Text.ToLower(l)[i] == l[i] {
        assert Text.LowerChar(Text.LowerChar(s[i])) == Text.LowerChar(s[i]);
      }
    }
    assert l != "" <==> s != "";
  }

  /** Any mention of the marker, in any letter case and at any place, classifies a project as mobile. */
  lemma {:induction false} MobileWhenMentioned(pre: string, mid: string, post: string)
    requires Text.ToLower(mid) == MobileMarker
    ensures KindOf(Some(pre + mid + post)) == Mobile
  {
    var s := pre + mid + post;
    Text.ToLowerConcat(pre + mid, post);
    Text.ToLowerConcat(pre, mid);
    var l := Text.ToLower(s);
    assert l == Text.ToLower(pre) + MobileMarker + Text.ToLower(post);
    assert l[|pre|..|pre| + |MobileMarker|] == MobileMarker;
    assert Text.OccursAt(l, MobileMarker, |pre|);
    assert |s| >= |MobileMarker| > 0;
  }

  /** The gallery's data, in display order. */
  const ProjectsData: seq<RawProject> := [
    RawProject("CosmicAI",
      "Full-stack astrology and psychic consultation app with real-time AI chatbot integration and location-based recommendations.",
      Some("React Native, Express.js, Supabase, RevenueCat, Expo, Expo Push Notifications"),
      "https://github.com/biruk-1/psysc-pro", "https://cosmicai.vercel.app/", Some("cosmicai.png"), Some(true)),
    RawProject("Coach AI",
      "Health and fitness mobile application connecting users with coaches nearby, featuring AI-guided fitness tips and real-time chat.",
      Some("React Native, Express.js, DigitalOcean, RevenueCat, Expo"),
      "https://github.com/biruk-1/coaching-app", "https://coachai.vercel.app/", Some("coachai.png"), Some(true)),
    RawProject("Hotel Management System Dashboard",
      "Comprehensive dashboard system with multi-role access for hotel staff like admin, waiter, cashier, and kitchen, including offline support.",
      Some("React, Express.js, SQLite, IndexedDB, cPanel"),
      "https://github.com/biruk-1/POS-system", "https://hotel-dashboard.vercel.app/", Some("hotel.png"), Some(true)),
    RawProject("Fitness Tracker App",
      "A React Native app offering BMI calculations, workout plans, and dietary recommendations.",
      Some("React Native, Redux, Django, MongoDB"),
      "https://github.com/biruk-1/fitness", "#", Some("fitness.png"), None),
    RawProject("Ticket App for Event Organizers",
      "A mobile app enabling event organizers to sell tickets, manage events, and track attendees.",
      Some("React Native, Firebase"),
      "https://github.com/biruk-1/my-ticket-app/tree/master", "#", Some("ticket.png"), None),
    RawProject("Convene App",
      "An app for scheduling meetings and task management with real-time notifications.",
      Some("React Native, Node.js, MongoDB"),
      "https://github.com/biruk-1/Convene/tree/master", "#", Some("convene.png"), None),
    RawProject("Competent Scholars Website",
      "A platform for students to find colleges and apply directly, with backend integration for analytics.",
      Some("React, Django, MySQL"),
      "https://github.com/biruk-1/conceltancyProject", "#", Some("conseltuncy.png"), None),
    RawProject("Casting Website",
      "A comprehensive platform that connects models and casting agencies.",
      Some("React, JSON"),
      "https://github.com/biruk-1/casting", "https://casting-alpha.vercel.app/", Some("casting.png"), None),
    RawProject("Casting Admin Dashboard",
      "The admin dashboard for managing subscriptions and analytics.",
      Some("React, JSON"),
      "https://github.com/biruk-1/castingAdmin", "https://castingAdmin-alpha.vercel.app/", Some("adminDashboard.png"), None),
    RawProject("Al-rajaa Recruitment Agency Website",
      "Website built for Al-rajaa Recruitment Agency with admin features.",
      Some("React, Firebase, ExpressJS"),
      "https://github.com/biruk-1/Al-rajaa-Workers", "https://al-rajaa-workers.vercel.app/", Some("al-rajaa.png"), None)
  ]

  /** The catalogue holds ten projects, each with an image of its own, so the default image is never used. */
  lemma CatalogueImages()
    ensures |ProjectsData| == 10
    ensures forall i :: 0 <= i < 10 ==> ImageOf(ProjectsData[i].image) == ProjectsData[i].image.value
  {
  }

  /** The breakpoint rule: two rows of cards at the current column count. */
  function InitialCountFor(width: int): (n: nat)
    ensures n == 2 || n == 4 || n == 6
    ensures n == 6 <==> width >= Viewport.Lg
    ensures n == 2 <==> width < Viewport.Md
  {
    if width >= Viewport.Lg then 6 else if width >= Viewport.Md then 4 else 2
  }

  /** A wider viewport never shows fewer cards at first. */
  lemma InitialCountMonotone(w1: int, w2: int)
    requires w1 <= w2
    ensures InitialCountFor(w1) <= InitialCountFor(w2)
  {
  }

  /** `showAll ? all : all.slice(0, initialCount)`: the whole list, or its prefix of at most `initialCount` cards. */
  function VisibleProjects<T>(all: seq<T>, showAll: bool, initialCount: nat): (v: seq<T>)
    ensures v <= all
    ensures showAll ==> v == all
    ensures !showAll ==> |v| == Min(initialCount, |all|)
  {
    if showAll then all else all[..Min(initialCount, |all|)]
  }

  /** The "Showing N" number of the gallery's label. */
  function ShowingCount(showAll: bool, initialCount: nat, total: nat): (n: nat)
    ensures n <= total
    ensures showAll ==> n == total
    ensures !showAll ==> n == Min(initialCount, total)
  {
    Min(if showAll then total else initialCount, total)
  }

  /** The label's number is the number of cards actually shown. */
  lemma ShowingCountIsVisibleLength<T>(all: seq<T>, showAll: bool, initialCount: nat)
    ensures ShowingCount(showAll, initialCount, |all|) == |VisibleProjects(all, showAll, initialCount)|
  {
  }

  /** With the whole catalogue on a 1280-pixel viewport, six of the ten cards show until "show all" is on. */
  lemma WideViewportExample()
    ensures |NormalizeAll(ProjectsData)| == 10
    ensures InitialCountFor(1280) == 6
    ensures |VisibleProjects(NormalizeAll(ProjectsData), false, InitialCountFor(1280))| == 6
    ensures VisibleProjects(NormalizeAll(ProjectsData), true, InitialCountFor(1280)) == NormalizeAll(ProjectsData)
  {
  }

  /** The gallery component's state. */
  class ProjectsSection {
    /** The normalised catalogue. */
    const projects: seq<Project>
    var showAll: bool
    var initialCount: nat

    ghost predicate Valid()
      reads this
    {
      initialCount == 2 || initialCount == 4 || initialCount == 6
    }

    /** First render: the normalised catalogue, "show all" off, six cards. */
    constructor ()
      ensures Valid()
      ensures projects == NormalizeAll(ProjectsData)
      ensures !showAll && initialCount == 6
    {
      projects := NormalizeAll(ProjectsData);
      showAll := false;
      initialCount := 6;
    }

    /** `compute`, run on mount and on every resize: recompute the card count from the width. */
    method Resize(width: int)
      modifies this
      ensures Valid()
      ensures initialCount == InitialCountFor(width)
      ensures showAll == old(showAll)
    {
      initialCount := InitialCountFor(width);
    }

    /** The Show More / Show Less button. */
    method ToggleShowAll()
      requires Valid()
      modifies this
      ensures Valid()
      ensures showAll == !old(showAll)
      ensures initialCount == old(initialCount)
    {
      showAll := !showAll;
    }

    /** The cards rendered, in catalogue order: never more than two rows of three until "show all" is on. */
    function Visible(): (v: seq<Project>)
      requires Valid()
      reads this
      ensures v <= projects
      ensures showAll ==> v == projects
      ensures !showAll ==> |v| == Min(initialCount, |projects|) && |v| <= 6
    {
      VisibleProjects(projects, showAll, initialCount)
    }

    /** The "Showing N of M" label as a pair. */
    function Label(): (nm: (nat, nat))
      requires Valid()
      reads this
      ensures nm.0 == |Visible()| && nm.1 == |projects|
    {
      ShowingCountIsVisibleLength(projects, showAll, initialCount);
      (ShowingCount(showAll, initialCount, |projects|), |projects|)
    }
  }

  /** Pressing Show More / Show Less twice leaves the gallery as it was. */
  method ToggleTwice(s: ProjectsSection)
    requires s.Valid()
    modifies s
    ensures s.showAll == old(s.showAll) && s.initialCount == old(s.initialCount)
    ensures s.Visible() == old(s.Visible())
  {
    s.ToggleShowAll();
    s.ToggleShowAll();
  }

  /** The standalone show-more control over a list it is handed. */
  class ShowMoreControls {
    const total: nat
    var showAll: bool
    var initialCount: nat

    /** First render for a list of `total` projects. */
    constructor (total: nat)
      ensures this.total == total && !showAll && initialCount == 6
    {
      this.total := total;
      showAll := false;
      initialCount := 6;
    }

    /** `compute`, the same breakpoint rule as the gallery's. */
    method Resize(width: int)
      modifies this
      ensures initialCount == InitialCountFor(width)
      ensures showAll == old(showAll)
    {
      initialCount := InitialCountFor(width);
    }

    /** The Show More / Show Less button. */
    method ToggleShowAll()
      modifies this
      ensures showAll == !old(showAll)
      ensures initialCount == old(initialCount)
    {
      showAll := !showAll;
    }

    /** The count the control announces: every project, or the breakpoint count (which may exceed the list). */
    function VisibleCount(): (n: nat)
      reads this
      ensures showAll ==> n == total
      ensures !showAll ==> n == initialCount
    {
      if showAll then total else initialCount
    }

    /** The "Showing N" number: the announced count capped at the list length, as the gallery's label computes it. */
    function ShowingNumber(): (n: nat)
      reads this
      ensures n == ShowingCount(showAll, initialCount, total)
      ensures n <= total
    {
      Min(VisibleCount(), total)
    }
  }
}
