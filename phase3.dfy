/** The phase-3 production run: a fixed schedule of 250 meetings over the 300 stores
    Store-101 … Store-400, 250 Teams threads over eight channels, and the statistics the run
    keeps while it calls the two generators. What the generators write is not part of this
    module: each call's outcome (done, or the message of the exception it raised) is a
    parameter, as are the Teams run's random draws and the clock. */
module Phase3Production {
  import opened Common
  import opened Calendar
  import V2 = MeetingTranscriptsV2

  // ------------------------------------------------------------------------
  // The stores
  // ------------------------------------------------------------------------

  /** `f'Store-{n}'`. */
  function StoreName(n: nat): string {
    "Store-" + NatToString(n)
  }

  /** Two store names are equal exactly when their numbers are. */
  lemma StoreNameInjective(a: nat, b: nat)
    ensures StoreName(a) == StoreName(b) <==> a == b
  {
    if StoreName(a) == StoreName(b) {
      assert NatToString(a) == StoreName(a)[6..];
      assert NatToString(b) == StoreName(b)[6..];
      ParseNatToString(a);
      ParseNatToString(b);
    }
  }

  /** `self.stores`: `Store-{100+i}` for `i` in `range(1, 301)`. */
  function Stores(): (r: seq<string>)
    ensures |r| == 300
  {
    seq(300, i requires 0 <= i < 300 => StoreName(101 + i))
  }

  /** The `i`-th store is numbered `101 + i`. */
  lemma StoreAt(i: nat)
    requires i < 300
    ensures Stores()[i] == StoreName(101 + i)
  {
  }

  /** The store list runs from Store-101 to Store-400. */
  lemma StoreEnds()
    ensures Stores()[0] == "Store-101" && Stores()[299] == "Store-400"
  {
    assert NatToString(101) == "101" by {
      assert NatToString(10) == "10";
    }
    assert NatToString(400) == "400" by {
      assert NatToString(40) == "40";
    }
  }

  /** A store name is in the list exactly when its number is within 101 … 400, and no
      store is listed twice. */
  lemma StoreRange()
    ensures forall n: nat :: StoreName(n) in Stores() <==> 101 <= n <= 400
    ensures forall i, j :: 0 <= i < j < 300 ==> Stores()[i] != Stores()[j]
  {
    forall n: nat
      ensures StoreName(n) in Stores() <==> 101 <= n <= 400
    {
      if StoreName(n) in Stores() {
        var i :| 0 <= i < 300 && Stores()[i] == StoreName(n);
        StoreNameInjective(101 + i, n);
      }
      if 101 <= n <= 400 {
        StoreAt(n - 101);
      }
    }
    forall i, j | 0 <= i < j < 300
      ensures Stores()[i] != Stores()[j]
    {
      StoreNameInjective(101 + i, 101 + j);
    }
  }

  // ------------------------------------------------------------------------
  // Statistics
  // ------------------------------------------------------------------------

  /** The `self.stats` dictionary. */
  datatype Stats = Stats(meetingsGenerated: nat, teamsThreadsGenerated: nat, storesCovered: set<string>, errors: seq<string>)

  /** The statistics of a generator just constructed. */
  const Fresh := Stats(0, 0, {}, [])

  /** What a call into a generator did: returned, or raised an exception with a message. */
  datatype Outcome = Generated | Raised(message: string)

  /** The number of calls that returned. */
  function Successes(outcomes: seq<Outcome>): (n: nat)
    ensures n <= |outcomes|
    decreases |outcomes|
  {
    if outcomes == [] then 0
    else Successes(outcomes[..|outcomes| - 1]) + (if outcomes[|outcomes| - 1].Generated? then 1 else 0)
  }

  function AllGenerated(n: nat): (r: seq<Outcome>)
    ensures |r| == n && forall k :: 0 <= k < n ==> r[k].Generated?
  {
    seq(n, k => Generated)
  }

  /** When every call returns, every call is counted. */
  lemma {:induction false} AllSucceed(n: nat)
    ensures Successes(AllGenerated(n)) == n
  {
    if n > 0 {
      assert AllGenerated(n)[..n - 1] == AllGenerated(n - 1);
      AllSucceed(n - 1);
    }
  }

  // ------------------------------------------------------------------------
  // Meeting attempts
  // ------------------------------------------------------------------------

  /** The five numbered steps of `generate_meetings`. */
  datatype Section = SiteVisits | VendorNegotiations | LessonsLearnedMeetings | DesignReviews | WeeklySyncs

  /** The meeting type each step passes to the meeting generator. */
  function TypeOf(section: Section): V2.MeetingType {
    match section
    case SiteVisits => V2.SiteVisitDebrief
    case VendorNegotiations => V2.VendorNegotiation
    case LessonsLearnedMeetings => V2.LessonsLearned
    case DesignReviews => V2.DesignReview
    case WeeklySyncs => V2.WeeklyDevSync
  }

  /** The words an error line of the step starts with. */
  function Label(section: Section): string {
    match section
    case SiteVisits => "Site visit"
    case VendorNegotiations => "Vendor negotiation"
    case LessonsLearnedMeetings => "Lessons learned"
    case DesignReviews => "Design review"
    case WeeklySyncs => "Weekly sync"
  }

  /** The two steps that add their store to `stores_covered`. */
  predicate CoversStore(section: Section) {
    section == SiteVisits || section == LessonsLearnedMeetings
  }

  /** One scheduled meeting: its step, its store id, topic, version or market, and how many
      days after the base date it is dated. */
  datatype Attempt = Attempt(section: Section, subject: string, dayOffset: nat)

  /** The error line an attempt appends when the generator raises `message`. */
  function ErrorLine(a: Attempt, message: string): string {
    Label(a.section) + " " + a.subject + ": " + message
  }

  /** The configuration an attempt hands to the meeting generator, dated from `baseDate`.
      The `participants` entry is not read by anything modelled here and is left out. */
  function ConfigOf(a: Attempt, baseDate: Day): V2.MeetingConfig {
    var date: Day := baseDate + a.dayOffset;
    match a.section
    case SiteVisits => V2.MeetingConfig(Str(a.subject), Absent, Absent, date)
    case LessonsLearnedMeetings => V2.MeetingConfig(Str(a.subject), Absent, Absent, date)
    case DesignReviews => V2.MeetingConfig(Absent, Str("template-" + a.subject), Str(a.subject), date)
    case _ => V2.MeetingConfig(Absent, Str(a.subject), Absent, date)
  }

  /** The transcript each attempt saves, `{type}_{store or topic}_{date}.txt`, is named
      after its store id or topic (`template-` and the version for a design review) and
      dated `dayOffset` days after the base date. */
  lemma AttemptFilename(a: Attempt, baseDate: Day)
    requires a.subject != []
    ensures V2.StoreTopic(ConfigOf(a, baseDate), "general")
            == if a.section == DesignReviews then "template-" + a.subject else a.subject
    ensures ConfigOf(a, baseDate).date == baseDate + a.dayOffset
  {
  }

  /** The statistics after one attempt: a returned call counts one meeting and, for a site
      visit or lessons-learned meeting, covers its store; a raised one appends one error. */
  function Record(s: Stats, a: Attempt, o: Outcome): Stats {
    match o
    case Generated =>
      s.(meetingsGenerated := s.meetingsGenerated + 1,
         storesCovered := if CoversStore(a.section) then s.storesCovered + {a.subject} else s.storesCovered)
    case Raised(message) => s.(errors := s.errors + [ErrorLine(a, message)])
  }

  /** The statistics after a run of attempts, in order. */
  function RecordAll(s: Stats, attempts: seq<Attempt>, outcomes: seq<Outcome>): Stats
    requires |attempts| == |outcomes|
    decreases |attempts|
  {
    if attempts == [] then s
    else
      var n := |attempts| - 1;
      Record(RecordAll(s, attempts[..n], outcomes[..n]), attempts[n], outcomes[n])
  }

  /** A run of attempts counts one meeting per call that returned and one error line per
      call that raised, in order after the earlier errors, and never touches the Teams counter. */
  lemma {:induction false} RecordAllCounts(s: Stats, attempts: seq<Attempt>, outcomes: seq<Outcome>)
    requires |attempts| == |outcomes|
    ensures var r := RecordAll(s, attempts, outcomes);
            && r.meetingsGenerated == s.meetingsGenerated + Successes(outcomes)
            && |r.errors| == |s.errors| + |outcomes| - Successes(outcomes)
            && s.errors <= r.errors
            && r.teamsThreadsGenerated == s.teamsThreadsGenerated
    decreases |attempts|
  {
    if attempts != [] {
      var n := |attempts| - 1;
      RecordAllCounts(s, attempts[..n], outcomes[..n]);
    }
  }

  /** The `k`-th attempt of a run is a site visit or lessons-learned meeting for `store`
      whose call returned. */
  predicate CoversAt(attempts: seq<Attempt>, outcomes: seq<Outcome>, k: int, store: string) {
    && 0 <= k < |attempts| && k < |outcomes|
    && outcomes[k].Generated? && CoversStore(attempts[k].section) && attempts[k].subject == store
  }

  /** A store is covered after a run exactly when it was before, or a site visit or
      lessons-learned attempt for it returned. */
  lemma {:induction false} RecordAllCoverage(s: Stats, attempts: seq<Attempt>, outcomes: seq<Outcome>, store: string)
    requires |attempts| == |outcomes|
    ensures store in RecordAll(s, attempts, outcomes).storesCovered
            <==> store in s.storesCovered || exists k :: CoversAt(attempts, outcomes, k, store)
    decreases |attempts|
  {
    if attempts != [] {
      var n := |attempts| - 1;
      var before := RecordAll(s, attempts[..n], outcomes[..n]);
      RecordAllLast(s, attempts, outcomes);
      RecordAllCoverage(s, attempts[..n], outcomes[..n], store);
      if store in RecordAll(s, attempts, outcomes).storesCovered && store !in s.storesCovered {
        if store in before.storesCovered {
          var k :| CoversAt(attempts[..n], outcomes[..n], k, store);
          assert CoversAt(attempts, outcomes, k, store);
        } else {
          assert CoversAt(attempts, outcomes, n, store);
        }
      }
      if exists k :: CoversAt(attempts, outcomes, k, store) {
        var k :| CoversAt(attempts, outcomes, k, store);
        if k < n {
          assert CoversAt(attempts[..n], outcomes[..n], k, store);
        }
      }
    }
  }

  /** Running two lists of attempts one after the other is running them joined. */
  lemma {:induction false} RecordAllAppend(s: Stats, a1: seq<Attempt>, o1: seq<Outcome>, a2: seq<Attempt>, o2: seq<Outcome>)
    requires |a1| == |o1| && |a2| == |o2|
    ensures RecordAll(s, a1 + a2, o1 + o2) == RecordAll(RecordAll(s, a1, o1), a2, o2)
    decreases |a2|
  {
    if a2 == [] {
      assert a1 + a2 == a1 && o1 + o2 == o1;
    } else {
      var n := |a2| - 1;
      var a, o := a1 + a2, o1 + o2;
      PrefixOfAppend(a1, a2, n);
      PrefixOfAppend(o1, o2, n);
      RecordAllLast(s, a, o);
      assert a[|a| - 1] == a2[n] && o[|o| - 1] == o2[n];
      RecordAllAppend(s, a1, o1, a2[..n], o2[..n]);
      RecordAllLast(RecordAll(s, a1, o1), a2, o2);
    }
  }

  /** The definition of `RecordAll`, one step back from the end. */
  lemma RecordAllLast(s: Stats, attempts: seq<Attempt>, outcomes: seq<Outcome>)
    requires |attempts| == |outcomes| > 0
    ensures var n := |attempts| - 1;
            RecordAll(s, attempts, outcomes) == Record(RecordAll(s, attempts[..n], outcomes[..n]), attempts[n], outcomes[n])
  {
  }

  // ------------------------------------------------------------------------
  // The schedule
  // ------------------------------------------------------------------------

  /** Step 1: `stores[i * 6]`, `30 + i * 7` days in, for `i < 50`. */
  function SiteVisitAttempts(): (r: seq<Attempt>)
    ensures |r| == 50
  {
    seq(50, i requires 0 <= i < 50 => Attempt(SiteVisits, Stores()[i * 6], 30 + i * 7))
  }

  /** The site visits go to every sixth store from Store-101 up to Store-395, and the last
      two are dated later than 365 days after the base date, that is after the run's today. */
  lemma SiteVisitSchedule()
    ensures forall i :: 0 <= i < 50 ==> SiteVisitAttempts()[i].subject == StoreName(101 + 6 * i)
    ensures SiteVisitAttempts()[49].subject == StoreName(395) && SiteVisitAttempts()[49].dayOffset == 373
    ensures forall i :: 0 <= i < 50 ==> (SiteVisitAttempts()[i].dayOffset > 365 <==> i >= 48)
  {
    forall i | 0 <= i < 50
      ensures SiteVisitAttempts()[i].subject == StoreName(101 + 6 * i)
    {
      StoreAt(6 * i);
    }
  }

  /** The topics of step 2, grouped by quarter: thirteen each for the first three, twelve
      for the fourth. */
  const VendorTopics: seq<string> := [
    "hvac-vendors-q1-2025", "electrical-contractors-q1", "plumbing-vendors-q1",
    "general-contractors-northeast-q1", "lighting-suppliers-q1", "flooring-vendors-q1",
    "signage-vendors-q1", "security-systems-q1", "hvac-maintenance-q1", "fire-suppression-q1",
    "hvac-parts-q1", "hvac-service-q1", "electrical-parts-q1",
    "hvac-vendors-q2-2025", "electrical-contractors-q2", "plumbing-vendors-q2",
    "general-contractors-midwest-q2", "lighting-suppliers-q2", "flooring-vendors-q2",
    "signage-vendors-q2", "security-systems-q2", "hvac-maintenance-q2", "fire-suppression-q2",
    "hvac-parts-q2", "hvac-service-q2", "electrical-parts-q2",
    "hvac-vendors-q3-2025", "electrical-contractors-q3", "plumbing-vendors-q3",
    "general-contractors-south-q3", "lighting-suppliers-q3", "flooring-vendors-q3",
    "signage-vendors-q3", "security-systems-q3", "hvac-maintenance-q3", "fire-suppression-q3",
    "hvac-parts-q3", "hvac-service-q3", "electrical-parts-q3",
    "hvac-vendors-q4-2025", "electrical-contractors-q4", "plumbing-vendors-q4",
    "general-contractors-west-q4", "lighting-suppliers-q4", "flooring-vendors-q4",
    "signage-vendors-q4", "security-systems-q4", "hvac-maintenance-q4", "fire-suppression-q4",
    "hvac-annual-review", "electrical-annual-review"]

  /** `(i // 13) + 1`. */
  function Quarter(i: nat): nat {
    i / 13 + 1
  }

  /** `(quarter - 1) * 90 + (i % 13) * 7`. */
  function VendorOffset(i: nat): nat {
    (Quarter(i) - 1) * 90 + (i % 13) * 7
  }

  /** Step 2: the first 50 topics, dated by quarter. */
  function VendorAttempts(): (r: seq<Attempt>)
    ensures |r| == 50
  {
    assert |VendorTopics| == 51;
    seq(50, i requires 0 <= i < 50 => Attempt(VendorNegotiations, VendorTopics[i], VendorOffset(i)))
  }

  /** The topic list has 51 entries, so `[:50]` never schedules the last one. Quarters 1 to 3
      hold thirteen negotiations and quarter 4 the remaining eleven; within a quarter they are
      a week apart starting on the quarter's first day (90 days per quarter), and all of them
      fall within the year. */
  lemma VendorSchedule()
    ensures |VendorTopics| == 51 && VendorTopics[50] == "electrical-annual-review"
    ensures forall i :: 0 <= i < 50 ==> 1 <= Quarter(i) <= 4 && (Quarter(i) == 4 <==> i >= 39)
    ensures forall i :: 0 <= i < 50 ==> (Quarter(i) - 1) * 90 <= VendorOffset(i) <= (Quarter(i) - 1) * 90 + 84
    ensures forall i :: 0 <= i < 49 && Quarter(i + 1) == Quarter(i) ==> VendorOffset(i + 1) == VendorOffset(i) + 7
    ensures forall i :: 0 <= i < 50 ==> VendorAttempts()[i].dayOffset <= 340
  {
  }

  /** Step 3: `Store-{50 + i}`, `60 + i * 4` days in, for `i < 80`. */
  function LessonsAttempts(): (r: seq<Attempt>)
    ensures |r| == 80
  {
    seq(80, i requires 0 <= i < 80 => Attempt(LessonsLearnedMeetings, StoreName(50 + i), 60 + i * 4))
  }

  /** The lessons-learned meetings review Store-50 … Store-129: the first 51 of them are not
      in the run's store list, the rest are. The last three are dated after the year. */
  lemma LessonsSchedule()
    ensures forall i :: 0 <= i < 80 ==> (LessonsAttempts()[i].subject in Stores() <==> i >= 51)
    ensures forall i :: 0 <= i < 80 ==> (LessonsAttempts()[i].dayOffset > 365 <==> i >= 77)
  {
    StoreRange();
  }

  /** `f'v{major}.{minor}'`. */
  function VersionName(major: nat, minor: nat): string {
    "v" + NatToString(major) + "." + NatToString(minor)
  }

  /** The template versions v2.0 … v5.9: major versions 2 to 5, each with minors 0 to 9. */
  function Versions(): (r: seq<string>)
    ensures |r| == 40
  {
    seq(40, i requires 0 <= i < 40 => VersionName(2 + i / 10, i % 10))
  }

  /** The versions run through the majors in order and, within each, through the minors in
      order; no version is listed twice. */
  lemma VersionOrder()
    ensures forall major, minor :: 2 <= major <= 5 && 0 <= minor <= 9 ==>
              Versions()[(major - 2) * 10 + minor] == VersionName(major, minor)
    ensures Versions()[0] == "v2.0" && Versions()[39] == "v5.9"
    ensures forall i, j :: 0 <= i < j < 40 ==> Versions()[i] != Versions()[j]
  {
    forall i, j | 0 <= i < j < 40
      ensures Versions()[i] != Versions()[j]
    {
      var a, b := Versions()[i], Versions()[j];
      assert a[1] == DigitChar(2 + i / 10) && a[3] == DigitChar(i % 10);
      assert b[1] == DigitChar(2 + j / 10) && b[3] == DigitChar(j % 10);
    }
  }

  /** Step 4: the versions, `15 + i * 9` days in, the topic being `template-` and the version. */
  function DesignAttempts(): (r: seq<Attempt>)
    ensures |r| == 40
  {
    seq(40, i requires 0 <= i < 40 => Attempt(DesignReviews, Versions()[i], 15 + i * 9))
  }

  /** The markets of step 5. */
  const Markets: seq<string> := [
    "Columbus-Market", "Cincinnati-Market", "Cleveland-Market",
    "Pittsburgh-Market", "Indianapolis-Market", "Louisville-Market",
    "Detroit-Market", "Nashville-Market", "Charlotte-Market", "Atlanta-Market",
    "Chicago-Market", "Milwaukee-Market", "Minneapolis-Market", "St-Louis-Market",
    "Kansas-City-Market", "Dallas-Market", "Houston-Market", "San-Antonio-Market",
    "Phoenix-Market", "Denver-Market", "Seattle-Market", "Portland-Market",
    "San-Francisco-Market", "Los-Angeles-Market", "San-Diego-Market",
    "Boston-Market", "Philadelphia-Market", "New-York-Market", "Baltimore-Market", "DC-Market"]

  /** Step 5: `markets[i]`, `7 + i * 12` days in, for `i < 30`. */
  function WeeklyAttempts(): (r: seq<Attempt>)
    ensures |r| == 30
  {
    assert |Markets| == 30;
    seq(30, i requires 0 <= i < 30 => Attempt(WeeklySyncs, Markets[i], 7 + i * 12))
  }

  /** The last design review falls after the year, every weekly sync within it, and each
      market is synced with once. */
  lemma LaterSchedule()
    ensures forall i :: 0 <= i < 40 ==> (DesignAttempts()[i].dayOffset > 365 <==> i == 39)
    ensures forall i :: 0 <= i < 30 ==> WeeklyAttempts()[i].dayOffset <= 355
    ensures |Markets| == 30 && forall i :: 0 <= i < 30 ==> WeeklyAttempts()[i].subject == Markets[i]
  {
  }

  /** The whole schedule of `generate_meetings`, step by step. */
  function Schedule(): (r: seq<Attempt>)
    ensures |r| == 250
  {
    SiteVisitAttempts() + VendorAttempts() + LessonsAttempts() + DesignAttempts() + WeeklyAttempts()
  }

  /** One step of a run: the statistics after the first `i + 1` attempts. */
  lemma RecordStep(s: Stats, attempts: seq<Attempt>, outcomes: seq<Outcome>, i: nat)
    requires |attempts| == |outcomes| && i < |attempts|
    ensures RecordAll(s, attempts[..i + 1], outcomes[..i + 1])
            == Record(RecordAll(s, attempts[..i], outcomes[..i]), attempts[i], outcomes[i])
  {
    assert attempts[..i + 1][..i] == attempts[..i];
    assert outcomes[..i + 1][..i] == outcomes[..i];
  }

  /** Running five lists of attempts one after the other, each with its own outcomes, is
      running them joined. */
  lemma RunInSteps(s: Stats, a1: seq<Attempt>, a2: seq<Attempt>, a3: seq<Attempt>, a4: seq<Attempt>, a5: seq<Attempt>,
                   o1: seq<Outcome>, o2: seq<Outcome>, o3: seq<Outcome>, o4: seq<Outcome>, o5: seq<Outcome>)
    requires |o1| == |a1| && |o2| == |a2| && |o3| == |a3| && |o4| == |a4| && |o5| == |a5|
    ensures RecordAll(s, a1 + a2 + a3 + a4 + a5, o1 + o2 + o3 + o4 + o5)
            == RecordAll(RecordAll(RecordAll(RecordAll(RecordAll(s, a1, o1), a2, o2), a3, o3), a4, o4), a5, o5)
  {
    RecordAllAppend(s, a1, o1, a2, o2);
    RecordAllAppend(s, a1 + a2, o1 + o2, a3, o3);
    RecordAllAppend(s, a1 + a2 + a3, o1 + o2 + o3, a4, o4);
    RecordAllAppend(s, a1 + a2 + a3 + a4, o1 + o2 + o3 + o4, a5, o5);
  }

  /** A sequence cut at four places and put back together. */
  lemma FiveChunks<T>(xs: seq<T>, e1: nat, e2: nat, e3: nat, e4: nat)
    requires e1 <= e2 <= e3 <= e4 <= |xs|
    ensures xs[..e1] + xs[e1..e2] + xs[e2..e3] + xs[e3..e4] + xs[e4..] == xs
  {
    assert xs[..e1] + xs[e1..e2] == xs[..e2];
    assert xs[..e2] + xs[e2..e3] == xs[..e3];
    assert xs[..e3] + xs[e3..e4] == xs[..e4];
    assert xs[..e4] + xs[e4..] == xs;
  }

  /** The template version list as step 4 builds it: for each major version 2 to 5, the
      minors 0 to 9 appended in turn, stopping both loops once 40 versions are listed. */
  method TemplateVersions() returns (versions: seq<string>)
    ensures versions == Versions()
  {
    versions := [];
    var majors := [2, 3, 4, 5];
    var m := 0;
    while m < |majors|
      invariant 0 <= m <= 4 && |versions| == 10 * m
      invariant versions == Versions()[..10 * m]
    {
      var major := majors[m];
      var minor := 0;
      while minor < 10
        invariant 0 <= minor <= 10 && |versions| == 10 * m + minor
        invariant versions == Versions()[..10 * m + minor]
      {
        assert Versions()[10 * m + minor] == VersionName(major, minor);
        versions := versions + [VersionName(major, minor)];
        assert versions == Versions()[..10 * m + minor + 1];
        if |versions| >= 40 {
          break;
        }
        minor := minor + 1;
      }
      if |versions| >= 40 {
        break;
      }
      m := m + 1;
    }
    assert |versions| == 40;
  }

  // ------------------------------------------------------------------------
  // The meeting run as a whole
  // ------------------------------------------------------------------------

  /** Over the 250 scheduled attempts every one either counts a meeting or appends one
      error line; earlier errors are kept and the Teams counter is left alone. */
  lemma MeetingTotals(s: Stats, outcomes: seq<Outcome>)
    requires |outcomes| == 250
    ensures var r := RecordAll(s, Schedule(), outcomes);
            && r.meetingsGenerated == s.meetingsGenerated + Successes(outcomes)
            && (r.meetingsGenerated - s.meetingsGenerated) + (|r.errors| - |s.errors|) == 250
            && s.errors <= r.errors
            && r.teamsThreadsGenerated == s.teamsThreadsGenerated
  {
    RecordAllCounts(s, Schedule(), outcomes);
  }

  /** Which attempt of the schedule covers a store: the site visits are attempts 0 to 49
      and the lessons-learned meetings attempts 100 to 179. */
  lemma ScheduleCovers(k: nat)
    requires k < 250
    ensures CoversStore(Schedule()[k].section) <==> k < 50 || 100 <= k < 180
    ensures k < 50 ==> Schedule()[k] == SiteVisitAttempts()[k]
    ensures 100 <= k < 180 ==> Schedule()[k] == LessonsAttempts()[k - 100]
  {
    var a1, a2, a3, a4 := SiteVisitAttempts(), VendorAttempts(), LessonsAttempts(), DesignAttempts();
    assert Schedule() == a1 + a2 + a3 + a4 + WeeklyAttempts();
    if k < 50 {
      assert Schedule()[k] == a1[k];
    } else if k < 100 {
      assert Schedule()[k] == a2[k - 50];
    } else if k < 180 {
      assert Schedule()[k] == a3[k - 100];
    } else if k < 220 {
      assert Schedule()[k] == a4[k - 180];
    } else {
      assert Schedule()[k] == WeeklyAttempts()[k - 220];
    }
  }

  /** Whether the site visit or the lessons-learned meeting of `store` returned. */
  predicate CoveredBy(outcomes: seq<Outcome>, store: string)
    requires |outcomes| == 250
  {
    || (exists i :: 0 <= i < 50 && outcomes[i].Generated? && store == StoreName(101 + 6 * i))
    || (exists k :: 100 <= k < 180 && outcomes[k].Generated? && store == StoreName(k - 50))
  }

  /** Where in the schedule the covering attempts are, and which stores they name. */
  lemma ScheduleShape()
    ensures forall k :: 0 <= k < 250 ==> (CoversStore(Schedule()[k].section) <==> k < 50 || 100 <= k < 180)
    ensures forall k :: 0 <= k < 50 ==> Schedule()[k].subject == StoreName(101 + 6 * k)
    ensures forall k :: 100 <= k < 180 ==> Schedule()[k].subject == StoreName(k - 50)
  {
    SiteVisitSchedule();
    forall k | 0 <= k < 250
      ensures CoversStore(Schedule()[k].section) <==> k < 50 || 100 <= k < 180
      ensures k < 50 ==> Schedule()[k].subject == StoreName(101 + 6 * k)
      ensures 100 <= k < 180 ==> Schedule()[k].subject == StoreName(k - 50)
    {
      ScheduleCovers(k);
    }
  }

  /** Coverage over any 250 attempts laid out as the schedule is. */
  lemma CoverageOf(attempts: seq<Attempt>, outcomes: seq<Outcome>, store: string)
    requires |attempts| == 250 && |outcomes| == 250
    requires forall k :: 0 <= k < 250 ==> (CoversStore(attempts[k].section) <==> k < 50 || 100 <= k < 180)
    requires forall k :: 0 <= k < 50 ==> attempts[k].subject == StoreName(101 + 6 * k)
    requires forall k :: 100 <= k < 180 ==> attempts[k].subject == StoreName(k - 50)
    ensures store in RecordAll(Fresh, attempts, outcomes).storesCovered <==> CoveredBy(outcomes, store)
  {
    RecordAllCoverage(Fresh, attempts, outcomes, store);
    if store in RecordAll(Fresh, attempts, outcomes).storesCovered {
      var k :| CoversAt(attempts, outcomes, k, store);
    }
    if exists i :: 0 <= i < 50 && outcomes[i].Generated? && store == StoreName(101 + 6 * i) {
      var i :| 0 <= i < 50 && outcomes[i].Generated? && store == StoreName(101 + 6 * i);
      assert CoversAt(attempts, outcomes, i, store);
    }
    if exists k :: 100 <= k < 180 && outcomes[k].Generated? && store == StoreName(k - 50) {
      var k :| 100 <= k < 180 && outcomes[k].Generated? && store == StoreName(k - 50);
      assert CoversAt(attempts, outcomes, k, store);
    }
  }

  /** The stores a run of the schedule covers, from none: exactly those whose site visit
      or lessons-learned meeting returned. */
  lemma MeetingCoverage(outcomes: seq<Outcome>, store: string)
    requires |outcomes| == 250
    ensures store in RecordAll(Fresh, Schedule(), outcomes).storesCovered <==> CoveredBy(outcomes, store)
  {
    ScheduleShape();
    CoverageOf(Schedule(), outcomes, store);
  }

  /** The stores a fully successful run covers, in number order: Store-50 … Store-129 from
      the lessons-learned meetings, then the site-visited stores above Store-129. */
  function CoveredStore(i: nat): string {
    StoreName(CoveredNumber(i))
  }

  /** The number of the `i`-th covered store. */
  function CoveredNumber(i: nat): nat {
    if i < 80 then 50 + i else 131 + 6 * (i - 80)
  }

  /** No two of the first `n` covered stores are the same, so there are `n` of them. */
  lemma {:induction false} CoveredStoreCount(n: nat)
    ensures |set i | 0 <= i < n :: CoveredStore(i)| == n
  {
    if n > 0 {
      var before := set i | 0 <= i < n - 1 :: CoveredStore(i);
      var after := set i | 0 <= i < n :: CoveredStore(i);
      var last := CoveredStore(n - 1);
      forall i | 0 <= i < n - 1
        ensures CoveredStore(i) != last
      {
        assert CoveredNumber(i) < CoveredNumber(n - 1);
        StoreNameInjective(CoveredNumber(i), CoveredNumber(n - 1));
      }
      assert last !in before;
      assert after == before + {last};
      CoveredStoreCount(n - 1);
    }
  }

  /** When all 250 meetings are generated, 125 stores are covered and not 130: the
      lessons-learned meetings on Store-101, -107, -113, -119 and -125 revisit stores the
      site visits already covered. */
  lemma FullRunCoverage()
    ensures |RecordAll(Fresh, Schedule(), AllGenerated(250)).storesCovered| == 125
  {
    var covered := RecordAll(Fresh, Schedule(), AllGenerated(250)).storesCovered;
    forall store
      ensures store in covered <==> CoveredBy(AllGenerated(250), store)
    {
      MeetingCoverage(AllGenerated(250), store);
    }
    CoveredCount(covered);
  }

  /** A set holding exactly the stores every site visit and lessons-learned meeting names
      has 125 members. */
  lemma CoveredCount(covered: set<string>)
    requires forall store :: store in covered <==> CoveredBy(AllGenerated(250), store)
    ensures |covered| == 125
  {
    var listed := set i | 0 <= i < 125 :: CoveredStore(i);
    forall store | store in covered
      ensures store in listed
    {
      var outcomes := AllGenerated(250);
      if exists i :: 0 <= i < 50 && outcomes[i].Generated? && store == StoreName(101 + 6 * i) {
        var i :| 0 <= i < 50 && store == StoreName(101 + 6 * i);
        var j := SiteVisitListed(i);
      } else {
        var k :| 100 <= k < 180 && store == StoreName(k - 50);
        assert store == CoveredStore(k - 100);
      }
    }
    forall store | store in listed
      ensures store in covered
    {
      var i :| 0 <= i < 125 && store == CoveredStore(i);
      ListedIsCovered(i);
    }
    assert covered == listed;
    CoveredStoreCount(125);
  }

  /** Where the store of site visit `i` comes in the covered list. */
  lemma SiteVisitListed(i: nat) returns (j: nat)
    requires i < 50
    ensures j < 125 && CoveredStore(j) == StoreName(101 + 6 * i)
  {
    j := if i < 5 then 51 + 6 * i else 80 + (i - 5);
  }

  lemma ListedIsCovered(i: nat)
    requires i < 125
    ensures CoveredBy(AllGenerated(250), CoveredStore(i))
  {
    var outcomes := AllGenerated(250);
    if i < 80 {
      assert outcomes[100 + i].Generated? && CoveredStore(i) == StoreName(100 + i - 50);
    } else {
      assert CoveredStore(i) == StoreName(101 + 6 * (i - 75)) && outcomes[i - 75].Generated?;
    }
  }

  // ------------------------------------------------------------------------
  // Teams conversations
  // ------------------------------------------------------------------------

  /** One entry of `channels_config`: the channel, how many threads to generate in it, and
      the themes a thread picks from. */
  datatype ChannelPlan = ChannelPlan(channel: string, threads: nat, themes: seq<string>)

  const ChannelPlans: seq<ChannelPlan> := [
    ChannelPlan("store-development-general", 40,
      ["site-visit-followup", "cost-variance-discussion", "schedule-update", "vendor-question",
       "permit-status", "construction-milestone", "inspection-result"]),
    ChannelPlan("construction-vendors", 50,
      ["supply-chain-delay", "pricing-negotiation", "vendor-performance-issue", "emergency-procurement",
       "quality-concern", "delivery-coordination", "vendor-substitution", "warranty-question"]),
    ChannelPlan("design-standards-updates", 30,
      ["template-update", "design-standard-change", "material-specification", "compliance-question",
       "sustainability-requirement", "accessibility-standard", "brand-guideline-update"]),
    ChannelPlan("columbus-market-planning", 25,
      ["market-specific-constraint", "regional-vendor-discussion", "permitting-timeline",
       "market-expansion-plan", "local-regulation-update", "competitor-activity"]),
    ChannelPlan("cincinnati-market-planning", 25,
      ["labor-rate-discussion", "union-requirement", "market-specific-constraint",
       "landlord-negotiation", "local-incentive-program", "market-trend-analysis"]),
    ChannelPlan("finance-cost-tracking", 30,
      ["budget-variance-alert", "cost-model-update", "financial-reporting", "savings-opportunity",
       "portfolio-performance", "roi-analysis", "capital-planning"]),
    ChannelPlan("project-management-tools", 25,
      ["schedule-optimization", "resource-allocation", "risk-mitigation", "stakeholder-communication",
       "milestone-tracking", "process-improvement"]),
    ChannelPlan("quality-and-compliance", 25,
      ["safety-incident-report", "code-compliance-check", "quality-inspection-finding", "warranty-claim",
       "lessons-learned-share", "best-practice-discussion"])]

  /** A thread's random draws: `random.choice(themes)` as an index into the themes,
      `random.choice(self.stores[:150])` as an index into the first 150 stores, and
      `random.randint(0, 365)`. */
  datatype ThreadDraw = ThreadDraw(theme: nat, store: nat, dayOffset: nat)

  predicate DrawFits(plan: ChannelPlan, d: ThreadDraw) {
    d.theme < |plan.themes| && d.store < 150 && d.dayOffset <= 365
  }

  /** Draws and outcomes for every planned thread of a channel, in order. */
  predicate ChannelFits(plan: ChannelPlan, draws: seq<ThreadDraw>, outcomes: seq<Outcome>) {
    && |draws| == plan.threads && |outcomes| == plan.threads
    && forall k :: 0 <= k < |draws| ==> DrawFits(plan, draws[k])
  }

  /** Draws and outcomes for every channel, in order. */
  predicate RunFits(plans: seq<ChannelPlan>, draws: seq<seq<ThreadDraw>>, outcomes: seq<seq<Outcome>>) {
    && |draws| == |plans| && |outcomes| == |plans|
    && forall c :: 0 <= c < |plans| ==> ChannelFits(plans[c], draws[c], outcomes[c])
  }

  /** The threads are about stores Store-101 … Store-250 and dated within the year. */
  lemma ThreadDrawRange(plan: ChannelPlan, d: ThreadDraw, baseDate: Day)
    requires DrawFits(plan, d)
    ensures Stores()[..150][d.store] == StoreName(101 + d.store) && 101 <= 101 + d.store <= 250
    ensures baseDate <= baseDate + d.dayOffset <= baseDate + 365
  {
    StoreAt(d.store);
  }

  /** The eight channels plan 250 threads. */
  lemma PlannedThreads()
    ensures |ChannelPlans| == 8 && ThreadTotal(ChannelPlans, 8) == 250
  {
  }

  /** The threads planned for the first `c` channels. */
  function ThreadTotal(plans: seq<ChannelPlan>, c: nat): nat
    requires c <= |plans|
  {
    if c == 0 then 0 else ThreadTotal(plans, c - 1) + plans[c - 1].threads
  }

  /** The error line of a Teams call that raised `message`. */
  function ThreadErrorLine(channel: string, theme: string, message: string): string {
    "Teams thread " + channel + "/" + theme + ": " + message
  }

  /** The error lines of one channel's calls, in order. */
  function ThreadErrors(plan: ChannelPlan, draws: seq<ThreadDraw>, outcomes: seq<Outcome>): (r: seq<string>)
    requires |draws| == |outcomes| && forall k :: 0 <= k < |draws| ==> DrawFits(plan, draws[k])
    ensures |r| == |outcomes| - Successes(outcomes)
    decreases |outcomes|
  {
    if outcomes == [] then []
    else
      var n := |outcomes| - 1;
      assert DrawFits(plan, draws[n]);
      ThreadErrors(plan, draws[..n], outcomes[..n])
      + match outcomes[n]
        case Generated => []
        case Raised(message) => [ThreadErrorLine(plan.channel, plan.themes[draws[n].theme], message)]
  }

  /** What `len(result['threads'])` adds up to over one channel's calls, the channel file
      holding `existing` threads before the first: every call that returns appends one thread
      to the file and hands back all of them. */
  function Reported(existing: nat, outcomes: seq<Outcome>): nat
    decreases |outcomes|
  {
    if outcomes == [] then 0
    else
      var n := |outcomes| - 1;
      Reported(existing, outcomes[..n])
      + (if outcomes[n].Generated? then existing + Successes(outcomes[..n]) + 1 else 0)
  }

  /** The threads a channel file holds before the run: none when it does not exist yet. */
  function InFile(onDisk: map<string, nat>, channel: string): nat {
    if channel in onDisk then onDisk[channel] else 0
  }

  /** The error lines of the first `c` channels of a Teams run, channel by channel. */
  function TeamsErrors(plans: seq<ChannelPlan>, draws: seq<seq<ThreadDraw>>, outcomes: seq<seq<Outcome>>, c: nat): seq<string>
    requires RunFits(plans, draws, outcomes) && c <= |plans|
  {
    if c == 0 then []
    else TeamsErrors(plans, draws, outcomes, c - 1) + ThreadErrors(plans[c - 1], draws[c - 1], outcomes[c - 1])
  }

  /** The counter as `generate_teams_conversations` keeps it over the first `c` channels:
      the sum of what their calls report. */
  function TeamsReported(plans: seq<ChannelPlan>, onDisk: map<string, nat>, outcomes: seq<seq<Outcome>>, c: nat): nat
    requires |outcomes| == |plans| && c <= |plans|
  {
    if c == 0 then 0
    else TeamsReported(plans, onDisk, outcomes, c - 1) + Reported(InFile(onDisk, plans[c - 1].channel), outcomes[c - 1])
  }

  /** The number of threads the first `c` channels' calls add to the channel files: one per
      call that returned. */
  function TeamsAdded(outcomes: seq<seq<Outcome>>, c: nat): nat
    requires c <= |outcomes|
  {
    if c == 0 then 0 else TeamsAdded(outcomes, c - 1) + Successes(outcomes[c - 1])
  }

  /** Every planned thread is either added to its channel or reported as one error line. */
  lemma {:induction false} TeamsAccounted(plans: seq<ChannelPlan>, draws: seq<seq<ThreadDraw>>, outcomes: seq<seq<Outcome>>, c: nat)
    requires RunFits(plans, draws, outcomes) && c <= |plans|
    ensures TeamsAdded(outcomes, c) + |TeamsErrors(plans, draws, outcomes, c)| == ThreadTotal(plans, c)
  {
    if c > 0 {
      TeamsAccounted(plans, draws, outcomes, c - 1);
      assert ChannelFits(plans[c - 1], draws[c - 1], outcomes[c - 1]);
    }
  }

  /** A channel whose calls all return, its file holding `existing` threads before, reports
      `n * existing` plus 1 + 2 + … + n threads for its `n` calls. */
  lemma {:induction false} ReportedAllGenerated(existing: nat, n: nat)
    ensures 2 * Reported(existing, AllGenerated(n)) == 2 * n * existing + n * (n + 1)
  {
    if n > 0 {
      var m := n - 1;
      assert AllGenerated(n)[..m] == AllGenerated(m);
      ReportedAllGenerated(existing, m);
      AllSucceed(m);
      assert Reported(existing, AllGenerated(n)) == Reported(existing, AllGenerated(m)) + existing + m + 1;
      TriangleStep(existing, m, Reported(existing, AllGenerated(m)));
    }
  }

  lemma TriangleStep(e: int, m: int, r: int)
    requires 2 * r == 2 * m * e + m * (m + 1)
    ensures 2 * (r + e + m + 1) == 2 * (m + 1) * e + (m + 1) * (m + 2)
  {
  }

  /** Every call of every channel returning. */
  function AllGeneratedRun(plans: seq<ChannelPlan>): (r: seq<seq<Outcome>>)
    ensures |r| == |plans| && forall c :: 0 <= c < |plans| ==> r[c] == AllGenerated(plans[c].threads)
  {
    seq(|plans|, c requires 0 <= c < |plans| => AllGenerated(plans[c].threads))
  }

  /** 1 + 2 + … + n for the thread count n of each of the first `c` channels, summed. */
  function Triangles(plans: seq<ChannelPlan>, c: nat): nat
    requires c <= |plans|
  {
    if c == 0 then 0 else Triangles(plans, c - 1) + plans[c - 1].threads * (plans[c - 1].threads + 1) / 2
  }

  /** With no channel file on disk and every call returning, the counter reaches the
      channels' triangle numbers summed, while the run adds one thread per planned one. */
  lemma {:induction false} FreshRunCounts(plans: seq<ChannelPlan>, c: nat)
    requires c <= |plans|
    ensures TeamsReported(plans, map[], AllGeneratedRun(plans), c) == Triangles(plans, c)
    ensures TeamsAdded(AllGeneratedRun(plans), c) == ThreadTotal(plans, c)
  {
    if c > 0 {
      var t := plans[c - 1].threads;
      FreshRunCounts(plans, c - 1);
      ReportedAllGenerated(0, t);
      AllSucceed(t);
    }
  }

  /** As written, the phase-3 Teams counter over-counts: with no channel file on disk and
      all 250 calls returning it reaches 4325, though 250 threads were generated. */
  lemma TeamsCounterAsWritten()
    ensures TeamsReported(ChannelPlans, map[], AllGeneratedRun(ChannelPlans), 8) == 4325
    ensures TeamsAdded(AllGeneratedRun(ChannelPlans), 8) == 250
  {
    PlannedThreads();
    FreshRunCounts(ChannelPlans, 8);
    ChannelTriangles();
  }

  lemma ChannelTriangles()
    ensures |ChannelPlans| == 8 && Triangles(ChannelPlans, 8) == 4325
  {
  }

  // ------------------------------------------------------------------------
  // print_summary
  // ------------------------------------------------------------------------

  /** `"=" * 60`. */
  const Rule: string := "============================================================"

  const NoErrorsLine: string := "\n✓ No errors encountered"

  /** The line closing a truncated error list. */
  function MoreLine(n: nat): string {
    "  ... and " + NatToString(n) + " more"
  }

  /** One printed line per error, in order. */
  function Bullets(errors: seq<string>): (r: seq<string>)
    ensures |r| == |errors| && forall i :: 0 <= i < |errors| ==> r[i] == "  - " + errors[i]
  {
    if errors == [] then [] else Bullets(errors[..|errors| - 1]) + ["  - " + errors[|errors| - 1]]
  }

  /** The error part of the summary: the count and the first ten errors, then how many
      more there are; or a single line saying there were none. */
  function ErrorReport(errors: seq<string>): (r: seq<string>)
    ensures errors == [] <==> r == [NoErrorsLine]
    ensures errors != [] ==> |r| == 1 + Min(|errors|, 10) + (if |errors| > 10 then 1 else 0)
    ensures errors != [] ==> forall i :: 0 <= i < Min(|errors|, 10) ==> r[1 + i] == "  - " + errors[i]
    ensures |errors| > 10 ==> r[|r| - 1] == MoreLine(|errors| - 10)
  {
    if errors == [] then [NoErrorsLine]
    else
      var r := ["\n⚠ Errors encountered:       " + NatToString(|errors|)]
               + Bullets(Take(errors, 10))
               + (if |errors| > 10 then [MoreLine(|errors| - 10)] else []);
      assert r[0] != NoErrorsLine by {
        assert r[0][1] == '⚠' && NoErrorsLine[1] == '✓';
      }
      r
  }

  /** A truncated error list still accounts for every error: the errors shown plus the
      number the last line reports add up to all of them. */
  lemma ErrorReportAccounts(errors: seq<string>)
    requires |errors| > 10
    ensures var r := ErrorReport(errors);
            var last := r[|r| - 1];
            && |r| == 12 && 15 <= |last|
            && AllDigits(last[10..|last| - 5])
            && (|r| - 2) + ParseNat(last[10..|last| - 5]) == |errors|
  {
    var r := ErrorReport(errors);
    var last := r[|r| - 1];
    assert last[10..|last| - 5] == NatToString(|errors| - 10);
    ParseNatToString(|errors| - 10);
  }

  /** What `print_summary` prints, one entry per `print` call. */
  function SummaryLines(s: Stats): (r: seq<string>)
    ensures |r| == 7 + |ErrorReport(s.errors)| && r[6..|r| - 1] == ErrorReport(s.errors) && r[|r| - 1] == "\n" + Rule
  {
    ["\n" + Rule, "PHASE 3 PRODUCTION GENERATION COMPLETE", Rule,
     "\nMeetings Generated:         " + NatToString(s.meetingsGenerated) + "/250",
     "Teams Threads Generated:    " + NatToString(s.teamsThreadsGenerated),
     "Stores Covered:             " + NatToString(|s.storesCovered|)]
    + ErrorReport(s.errors) + ["\n" + Rule]
  }

  // ------------------------------------------------------------------------
  // Phase3Generator
  // ------------------------------------------------------------------------

  /** The generator: its store list, the date a year before the run that every meeting and
      thread is dated from, and the statistics its steps update. */
  class Phase3Generator {
    const stores: seq<string>
    const baseDate: Day
    var stats: Stats

    /** A generator constructed on `today`, which must lie after the first year of the
        calendar for the base date to exist. */
    constructor (today: Day)
      requires today > 365
      ensures stores == Stores() && baseDate == today - 365 && stats == Fresh
    {
      stores := Stores();
      baseDate := today - 365;
      stats := Fresh;
    }

    /** One `try` block of `generate_meetings`: the generator's call returns or raises. */
    method AttemptMeeting(a: Attempt, o: Outcome)
      modifies this
      ensures stats == Record(old(stats), a, o)
    {
      if o.Generated? {
        stats := stats.(meetingsGenerated := stats.meetingsGenerated + 1);
        if CoversStore(a.section) {
          stats := stats.(storesCovered := stats.storesCovered + {a.subject});
        }
      } else {
        stats := stats.(errors := stats.errors + [ErrorLine(a, o.message)]);
      }
    }

    /** Step 1, the site visit debriefs. */
    method GenerateSiteVisits(outcomes: seq<Outcome>)
      requires stores == Stores() && |outcomes| == 50
      modifies this
      ensures stats == RecordAll(old(stats), SiteVisitAttempts(), outcomes)
    {
      ghost var start := stats;
      for i := 0 to 50
        invariant stats == RecordAll(start, SiteVisitAttempts()[..i], outcomes[..i])
      {
        var storeId := stores[i * 6];
        var daysOffset := 30 + i * 7;
        RecordStep(start, SiteVisitAttempts(), outcomes, i);
        AttemptMeeting(Attempt(SiteVisits, storeId, daysOffset), outcomes[i]);
      }
      assert SiteVisitAttempts()[..50] == SiteVisitAttempts() && outcomes[..50] == outcomes;
    }

    /** Step 2, the vendor negotiations over the first 50 topics. */
    method GenerateVendorNegotiations(outcomes: seq<Outcome>)
      requires |outcomes| == 50
      modifies this
      ensures stats == RecordAll(old(stats), VendorAttempts(), outcomes)
    {
      ghost var start := stats;
      VendorSchedule();
      var topics := VendorTopics[..50];
      for i := 0 to |topics|
        invariant stats == RecordAll(start, VendorAttempts()[..i], outcomes[..i])
      {
        var quarter := i / 13 + 1;
        var daysOffset := (quarter - 1) * 90 + (i % 13) * 7;
        RecordStep(start, VendorAttempts(), outcomes, i);
        AttemptMeeting(Attempt(VendorNegotiations, topics[i], daysOffset), outcomes[i]);
      }
      assert VendorAttempts()[..50] == VendorAttempts() && outcomes[..50] == outcomes;
    }

    /** Step 3, the lessons-learned meetings on Store-50 … Store-129. */
    method GenerateLessonsLearned(outcomes: seq<Outcome>)
      requires |outcomes| == 80
      modifies this
      ensures stats == RecordAll(old(stats), LessonsAttempts(), outcomes)
    {
      ghost var start := stats;
      for i := 0 to 80
        invariant stats == RecordAll(start, LessonsAttempts()[..i], outcomes[..i])
      {
        var storeId := StoreName(50 + i);
        var daysOffset := 60 + i * 4;
        RecordStep(start, LessonsAttempts(), outcomes, i);
        AttemptMeeting(Attempt(LessonsLearnedMeetings, storeId, daysOffset), outcomes[i]);
      }
      assert LessonsAttempts()[..80] == LessonsAttempts() && outcomes[..80] == outcomes;
    }

    /** Step 4, the design reviews: the version list is built, then the first 40 reviewed. */
    method GenerateDesignReviews(outcomes: seq<Outcome>)
      requires |outcomes| == 40
      modifies this
      ensures stats == RecordAll(old(stats), DesignAttempts(), outcomes)
    {
      ghost var start := stats;
      var templateVersions := TemplateVersions();
      var listed := Take(templateVersions, 40);
      for i := 0 to |listed|
        invariant stats == RecordAll(start, DesignAttempts()[..i], outcomes[..i])
      {
        var daysOffset := 15 + i * 9;
        RecordStep(start, DesignAttempts(), outcomes, i);
        AttemptMeeting(Attempt(DesignReviews, listed[i], daysOffset), outcomes[i]);
      }
      assert DesignAttempts()[..40] == DesignAttempts() && outcomes[..40] == outcomes;
    }

    /** Step 5, the weekly syncs, one per market. */
    method GenerateWeeklySyncs(outcomes: seq<Outcome>)
      requires |outcomes| == 30
      modifies this
      ensures stats == RecordAll(old(stats), WeeklyAttempts(), outcomes)
    {
      ghost var start := stats;
      LaterSchedule();
      for i := 0 to 30
        invariant stats == RecordAll(start, WeeklyAttempts()[..i], outcomes[..i])
      {
        var market := Markets[i];
        var daysOffset := 7 + i * 12;
        RecordStep(start, WeeklyAttempts(), outcomes, i);
        AttemptMeeting(Attempt(WeeklySyncs, market, daysOffset), outcomes[i]);
      }
      assert WeeklyAttempts()[..30] == WeeklyAttempts() && outcomes[..30] == outcomes;
    }

    /** `generate_meetings`: the five steps in order, `outcomes` holding what each of the 250
        calls did. */
    method GenerateMeetings(outcomes: seq<Outcome>)
      requires stores == Stores() && |outcomes| == 250
      modifies this
      ensures stats == RecordAll(old(stats), Schedule(), outcomes)
    {
      ghost var s0 := stats;
      GenerateSiteVisits(outcomes[..50]);
      GenerateVendorNegotiations(outcomes[50..100]);
      GenerateLessonsLearned(outcomes[100..180]);
      GenerateDesignReviews(outcomes[180..220]);
      GenerateWeeklySyncs(outcomes[220..]);
      RunInSteps(s0, SiteVisitAttempts(), VendorAttempts(), LessonsAttempts(), DesignAttempts(), WeeklyAttempts(),
                 outcomes[..50], outcomes[50..100], outcomes[100..180], outcomes[180..220], outcomes[220..]);
      FiveChunks(outcomes, 50, 100, 180, 220);
    }

    /** The threads of one channel, its file holding `existing` threads before: each call
        that returns appends one thread to the file and hands back all of the file's
        threads; each call that raises appends one error line. Returns the number of threads
        added and the sum of the thread counts handed back. */
    method GenerateChannel(plan: ChannelPlan, existing: nat, draws: seq<ThreadDraw>, outcomes: seq<Outcome>)
      returns (added: nat, reported: nat)
      requires ChannelFits(plan, draws, outcomes)
      modifies this
      ensures added == Successes(outcomes) && reported == Reported(existing, outcomes)
      ensures stats == old(stats).(errors := old(stats).errors + ThreadErrors(plan, draws, outcomes))
    {
      ghost var start := stats;
      var inFile := existing;
      added, reported := 0, 0;
      for i := 0 to plan.threads
        invariant inFile == existing + added
        invariant added == Successes(outcomes[..i]) && reported == Reported(existing, outcomes[..i])
        invariant stats == start.(errors := start.errors + ThreadErrors(plan, draws[..i], outcomes[..i]))
      {
        assert outcomes[..i + 1][..i] == outcomes[..i] && draws[..i + 1][..i] == draws[..i];
        var theme := plan.themes[draws[i].theme];
        match outcomes[i]
        case Generated =>
          inFile := inFile + 1;
          added := added + 1;
          reported := reported + inFile;
        case Raised(message) =>
          stats := stats.(errors := stats.errors + [ThreadErrorLine(plan.channel, theme, message)]);
      }
      assert outcomes[..plan.threads] == outcomes && draws[..plan.threads] == draws;
    }

    /** The channel loop of `generate_teams_conversations`: each channel's calls in turn,
        giving the threads added to the channel files and the sum of the thread counts the
        calls hand back. */
    method GenerateChannels(plans: seq<ChannelPlan>, onDisk: map<string, nat>, draws: seq<seq<ThreadDraw>>, outcomes: seq<seq<Outcome>>)
      returns (added: nat, reported: nat)
      requires RunFits(plans, draws, outcomes)
      modifies this
      ensures added == TeamsAdded(outcomes, |plans|) && reported == TeamsReported(plans, onDisk, outcomes, |plans|)
      ensures stats == old(stats).(errors := old(stats).errors + TeamsErrors(plans, draws, outcomes, |plans|))
    {
      ghost var start := stats;
      added, reported := 0, 0;
      for c := 0 to |plans|
        invariant added == TeamsAdded(outcomes, c) && reported == TeamsReported(plans, onDisk, outcomes, c)
        invariant stats == start.(errors := start.errors + TeamsErrors(plans, draws, outcomes, c))
      {
        var plan := plans[c];
        assert ChannelFits(plan, draws[c], outcomes[c]);
        var channelAdded, channelReported := GenerateChannel(plan, InFile(onDisk, plan.channel), draws[c], outcomes[c]);
        AppendAssociates(start.errors, TeamsErrors(plans, draws, outcomes, c), ThreadErrors(plan, draws[c], outcomes[c]));
        added := added + channelAdded;
        reported := reported + channelReported;
      }
    }

    /** `generate_teams_conversations` as written: the counter, and the total it prints,
        grow by the thread counts the calls hand back. */
    method GenerateTeamsConversations(onDisk: map<string, nat>, draws: seq<seq<ThreadDraw>>, outcomes: seq<seq<Outcome>>)
      returns (totalThreads: nat)
      requires RunFits(ChannelPlans, draws, outcomes)
      modifies this
      ensures totalThreads == TeamsReported(ChannelPlans, onDisk, outcomes, 8)
      ensures stats == old(stats).(teamsThreadsGenerated := old(stats).teamsThreadsGenerated + totalThreads,
                                   errors := old(stats).errors + TeamsErrors(ChannelPlans, draws, outcomes, 8))
    {
      PlannedThreads();
      var added;
      added, totalThreads := GenerateChannels(ChannelPlans, onDisk, draws, outcomes);
      stats := stats.(teamsThreadsGenerated := stats.teamsThreadsGenerated + totalThreads);
    }

    /** The Teams step with the counter corrected: it grows by the threads the calls add,
        one per call that returns, so with the errors it accounts for all 250 planned threads. */
    method GenerateTeamsConversationsCounted(onDisk: map<string, nat>, draws: seq<seq<ThreadDraw>>, outcomes: seq<seq<Outcome>>)
      returns (totalThreads: nat)
      requires RunFits(ChannelPlans, draws, outcomes)
      modifies this
      ensures totalThreads == TeamsAdded(outcomes, 8)
      ensures totalThreads + |TeamsErrors(ChannelPlans, draws, outcomes, 8)| == 250
      ensures stats == old(stats).(teamsThreadsGenerated := old(stats).teamsThreadsGenerated + totalThreads,
                                   errors := old(stats).errors + TeamsErrors(ChannelPlans, draws, outcomes, 8))
    {
      PlannedThreads();
      var reported;
      totalThreads, reported := GenerateChannels(ChannelPlans, onDisk, draws, outcomes);
      stats := stats.(teamsThreadsGenerated := stats.teamsThreadsGenerated + totalThreads);
      TeamsAccounted(ChannelPlans, draws, outcomes, 8);
    }

    /** `run`: the meetings, then the Teams threads with the counter corrected, then the
        summary. From a fresh generator, every one of the 500 calls ends up counted once:
        as a meeting, as a thread, or as an error. */
    method Run(meetingOutcomes: seq<Outcome>, onDisk: map<string, nat>, draws: seq<seq<ThreadDraw>>, teamsOutcomes: seq<seq<Outcome>>)
      returns (printed: seq<string>)
      requires stores == Stores() && |meetingOutcomes| == 250 && RunFits(ChannelPlans, draws, teamsOutcomes)
      modifies this
      ensures var meetings := RecordAll(old(stats), Schedule(), meetingOutcomes);
              stats == meetings.(teamsThreadsGenerated := meetings.teamsThreadsGenerated + TeamsAdded(teamsOutcomes, 8),
                                 errors := meetings.errors + TeamsErrors(ChannelPlans, draws, teamsOutcomes, 8))
      ensures old(stats) == Fresh ==> stats.meetingsGenerated + stats.teamsThreadsGenerated + |stats.errors| == 500
      ensures printed == SummaryLines(stats)
    {
      MeetingTotals(stats, meetingOutcomes);
      GenerateMeetings(meetingOutcomes);
      var threads := GenerateTeamsConversationsCounted(onDisk, draws, teamsOutcomes);
      printed := SummaryLines(stats);
    }
  }
}
