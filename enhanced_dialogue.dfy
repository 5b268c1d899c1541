/** The enhanced-dialogue demo: a lessons-learned meeting about one store's electrical
    variance, written as eleven fixed turns whose stamps a loop adds in place, and the
    transcript the demo prints from it. */
module EnhancedDialogue {
  import opened Common
  import opened Timestamps
  import opened Calendar
  import MeetingTranscripts
  import MeetingTranscriptsV2

  /** The fields of `historical_data` the generator reads. */
  datatype HistoricalData = HistoricalData(estimated: int, actual: int, backupVendor: ConfigValue, completionDate: Day)

  function Abs(i: int): nat {
    if i < 0 then -i else i
  }

  function RealAbs(x: real): real {
    if x < 0.0 then -x else x
  }

  /** `electrical_actual - electrical_estimated`. */
  function Variance(data: HistoricalData): int {
    data.actual - data.estimated
  }

  /** `abs(variance / estimated * 100)` in exact arithmetic; a zero estimate raises. */
  function VariancePct(data: HistoricalData): (r: Result<real>)
    ensures r.Err? <==> data.estimated == 0
    ensures r.Err? ==> r.error == "ZeroDivisionError"
    ensures r.Ok? ==> r.value >= 0.0 && r.value * (Abs(data.estimated) as real) == (Abs(Variance(data)) as real) * 100.0
  {
    if data.estimated == 0 then Err("ZeroDivisionError")
    else
      var pct := RealAbs((Variance(data) as real) / (data.estimated as real) * 100.0);
      PercentOfEstimate(Variance(data), data.estimated);
      Ok(pct)
  }

  lemma PercentOfEstimate(v: int, e: int)
    requires e != 0
    ensures RealAbs((v as real) / (e as real) * 100.0) * (Abs(e) as real) == (Abs(v) as real) * 100.0
  {
    var q := (v as real) / (e as real);
    assert q * (e as real) == v as real;
    if e > 0 {
      assert (Abs(e) as real) == e as real;
    } else {
      assert (Abs(e) as real) == -(e as real);
    }
  }

  /** The words the dialogue uses for the variance. */
  datatype Tone = Tone(direction: string, verb: string, benefit: string)

  /** `under`/`saved`/`cost savings` below the estimate, `over`/`added`/`lesson learned`
      otherwise, an exact match included. */
  function ToneOf(variance: int): (t: Tone)
    ensures t.direction == "under" <==> variance < 0
    ensures t.direction == "over" <==> variance >= 0
    ensures t.verb == "saved" <==> variance < 0
    ensures t.benefit == "cost savings" <==> variance < 0
  {
    if variance < 0 then Tone("under", "saved", "cost savings") else Tone("over", "added", "lesson learned")
  }

  // ------------------------------------------------------------------------
  // The script
  // ------------------------------------------------------------------------

  /** One exchange: who speaks, in which role, what they say and, once the loop has run,
      the `timestamp` key. */
  datatype Turn = Turn(speaker: string, role: string, text: string, timestamp: Option<string>)

  /** The four people of the meeting, in the order they first speak. */
  const Cast: seq<MeetingTranscriptsV2.Attendee> :=
    [MeetingTranscriptsV2.Attendee("Sarah Chen", "Project Manager"),
     MeetingTranscriptsV2.Attendee("David Park", "VP Store Development"),
     MeetingTranscriptsV2.Attendee("Lisa Thompson", "Finance Analyst"),
     MeetingTranscriptsV2.Attendee("Tom Wilson", "General Contractor")]

  /** A position in the cast. */
  type Member = i: nat | i < 4

  /** Which member of the cast speaks each of the eleven turns. */
  const Order: seq<Member> := [0, 1, 2, 0, 3, 1, 0, 2, 3, 0, 1]

  // The sentences the turns carry unchanged.
  const GoodTiming: string := "Good timing. What are the key variances we need to understand?"
  const WhatDrove: string := "What drove that variance?"
  const KeyLearning: string :=
    "Operationally, the key learning is that backup vendors can sometimes offer better value. We should always get quotes from at least two contractors."
  const KnowledgeBase: string :=
    "I'll make sure these learnings get added to our knowledge base and shared with the broader team."
  const Closing: string :=
    "Excellent work team. Let's apply these insights to our upcoming projects in the Columbus and Cincinnati markets."

  /** `historical_data.get('backup_vendor', 'TempMaster')` as the f-string renders it. */
  function VendorName(v: ConfigValue): string {
    if v.Absent? then "TempMaster" else Render(v)
  }

  /** The texts of the eleven turns. `pct` is `variance_pct` as `:.0f` renders it. */
  function Texts(storeId: string, data: HistoricalData, daysSince: int, pct: string): (texts: seq<string>)
    ensures |texts| == |Order|
  {
    var v, tone, vendor := Variance(data), ToneOf(Variance(data)), VendorName(data.backupVendor);
    [Opening0 + storeId + Opening1 + IntToString(daysSince) + Opening2,
     GoodTiming,
     Financials0 + WithCommas(Abs(v)) + " " + tone.direction + Financials1 + WithCommas(data.estimated)
       + Financials2 + WithCommas(data.actual) + ".",
     WhatDrove,
     Vendor0 + vendor + Vendor1 + pct + "% " + tone.direction + Vendor2,
     Rotation0 + vendor + Rotation1,
     Recommend0 + pct + "% " + tone.benefit + Recommend1,
     Budget0 + tone.verb + " us $" + WithCommas(Abs(v)) + Budget1,
     KeyLearning,
     KnowledgeBase,
     Closing]
  }

  // The fixed pieces of the turns that quote the figures.
  const Opening0: string := "Thanks everyone for joining. Let's review "
  const Opening1: string := "'s performance. We completed this project "
  const Opening2: string := " days ago, so the data is fresh."
  const Financials0: string := "Looking at the financials, we came in $"
  const Financials1: string := " budget on electrical. We estimated $"
  const Financials2: string := " but actual was $"
  const Vendor0: string := "We used "
  const Vendor1: string := " instead of our usual contractor. They had "
  const Vendor2: string := " pricing but quality was excellent."
  const Rotation0: string := "Is this a one-time variance or should we consider "
  const Rotation1: string := " for our primary vendor rotation?"
  const Recommend0: string := "Based on this project, I'd recommend adding them to our preferred vendor list. The "
  const Recommend1: string := " could be significant across our portfolio."
  const Budget0: string := "From a budget perspective, this "
  const Budget1: string := ". If we see similar results across other markets, that could impact our annual projections."

  /** The dialogue list before its stamps: turn `i` spoken by `Cast[Order[i]]`. */
  function Script(texts: seq<string>): (turns: seq<Turn>)
    requires |texts| == |Order|
    ensures |turns| == |Order|
    ensures forall i :: 0 <= i < |turns| ==>
              && turns[i].speaker == Cast[Order[i]].name && turns[i].role == Cast[Order[i]].role
              && turns[i].text == texts[i] && turns[i].timestamp == None
  {
    seq(|Order|, i requires 0 <= i < |Order| => Turn(Cast[Order[i]].name, Cast[Order[i]].role, texts[i], None))
  }

  /** The turns with stamp `i` set on turn `i` and nothing else changed. */
  function Stamped(turns: seq<Turn>, gaps: seq<int>): (r: seq<Turn>)
    requires GapsInRange(gaps) && |gaps| == |turns|
    ensures |r| == |turns|
    ensures forall i :: 0 <= i < |turns| ==> r[i] == turns[i].(timestamp := Some(TurnStamp(gaps, i)))
  {
    seq(|turns|, i requires 0 <= i < |turns| => turns[i].(timestamp := Some(TurnStamp(gaps, i))))
  }

  /** What `generate_lessons_learned_dialogue` returns for meeting day `today`, the
      rendering `formatPct` of `variance_pct` and the eleven drawn gaps. */
  function LessonsLearnedDialogue(storeId: string, data: HistoricalData, today: Day, formatPct: real -> string,
                                  gaps: seq<int>): Result<seq<Turn>>
    requires GapsInRange(gaps) && |gaps| == |Order|
  {
    var pct := VariancePct(data);
    if pct.Err? then Err(pct.error)
    else Ok(Stamped(Script(Texts(storeId, data, today - data.completionDate, formatPct(pct.value))), gaps))
  }

  /** The timestamp loop: each turn gets the clock formatted, then the clock advances by
      that turn's gap. */
  method AddTimestamps(dialogue: array<Turn>, gaps: seq<int>)
    requires GapsInRange(gaps) && |gaps| == dialogue.Length
    modifies dialogue
    ensures dialogue[..] == Stamped(old(dialogue[..]), gaps)
  {
    ghost var before := dialogue[..];
    var currentTime := 0;
    for k := 0 to dialogue.Length
      invariant currentTime == StartTime(gaps, k)
      invariant forall i :: 0 <= i < k ==> dialogue[i] == before[i].(timestamp := Some(TurnStamp(gaps, i)))
      invariant forall i :: k <= i < dialogue.Length ==> dialogue[i] == before[i]
    {
      StartTimeNonNegative(gaps, k);
      var stamp := FormatTimestamp(currentTime);
      assert stamp == TurnStamp(gaps, k);
      dialogue[k] := dialogue[k].(timestamp := Some(stamp));
      StartTimeStep(gaps, k);
      currentTime := currentTime + gaps[k];
    }
  }

  /** `generate_lessons_learned_dialogue`. */
  method GenerateLessonsLearnedDialogue(storeId: string, data: HistoricalData, today: Day,
                                        formatPct: real -> string, gaps: seq<int>)
    returns (r: Result<seq<Turn>>)
    requires GapsInRange(gaps) && |gaps| == |Order|
    ensures r == LessonsLearnedDialogue(storeId, data, today, formatPct, gaps)
  {
    var pct := VariancePct(data);
    if pct.Err? {
      return Err(pct.error);
    }
    var dialogue := StampScript(Texts(storeId, data, today - data.completionDate, formatPct(pct.value)), gaps);
    return Ok(dialogue);
  }

  /** The dialogue list built from the texts, then stamped in place. */
  method StampScript(texts: seq<string>, gaps: seq<int>) returns (dialogue: seq<Turn>)
    requires |texts| == |Order| && GapsInRange(gaps) && |gaps| == |Order|
    ensures dialogue == Stamped(Script(texts), gaps)
  {
    var script := Script(texts);
    var turns := new Turn[|script|](i requires 0 <= i < |script| => script[i]);
    assert turns[..] == script;
    AddTimestamps(turns, gaps);
    dialogue := turns[..];
  }

  /** Eleven turns spoken in the fixed order, the first stamped `[00:00:00]` and each
      later one 30 to 180 seconds per turn after any earlier one; only a zero estimate
      stops the generator. */
  lemma DialogueShape(storeId: string, data: HistoricalData, today: Day, formatPct: real -> string, gaps: seq<int>,
                      j: nat, k: nat)
    requires GapsInRange(gaps) && |gaps| == |Order| && j < k < |Order|
    ensures var r := LessonsLearnedDialogue(storeId, data, today, formatPct, gaps);
            && (r.Err? <==> data.estimated == 0)
            && (r.Ok? ==> ScriptShape(r.value, gaps, j, k))
  {
    var pct := VariancePct(data);
    if pct.Ok? {
      StampedScriptShape(Texts(storeId, data, today - data.completionDate, formatPct(pct.value)), gaps, j, k);
    }
  }

  /** Who speaks each turn and how its stamps run. */
  predicate ScriptShape(dialogue: seq<Turn>, gaps: seq<int>, j: nat, k: nat)
    requires GapsInRange(gaps) && |gaps| == |Order| && j < k < |Order|
  {
    && |dialogue| == 11
    && (forall i :: 0 <= i < 11 ==>
          (dialogue[i].speaker == Cast[Order[i]].name && dialogue[i].role == Cast[Order[i]].role))
    && dialogue[0].timestamp == Some("[00:00:00]")
    && dialogue[j].timestamp.Some? && dialogue[k].timestamp.Some?
    && ParseClock(dialogue[j].timestamp.value).Ok? && ParseClock(dialogue[k].timestamp.value).Ok?
    && 30 * (k - j) <= ClockSeconds(ParseClock(dialogue[k].timestamp.value).value)
                       - ClockSeconds(ParseClock(dialogue[j].timestamp.value).value) <= 180 * (k - j)
  }

  lemma StampedScriptShape(texts: seq<string>, gaps: seq<int>, j: nat, k: nat)
    requires |texts| == |Order| && GapsInRange(gaps) && |gaps| == |Order| && j < k < |Order|
    ensures ScriptShape(Stamped(Script(texts), gaps), gaps, j, k)
  {
    FirstTurnStamp(gaps);
    TurnStampsIncrease(gaps, j, k);
  }

  // ------------------------------------------------------------------------
  // format_dialogue_as_transcript
  // ------------------------------------------------------------------------

  /** `_get_team_for_role`: the four roles of the cast, `ANF` for any other. */
  const TeamMap: map<string, string> :=
    map["Project Manager" := "ANF Store Development", "General Contractor" := "BuildRight Construction",
        "VP Store Development" := "ANF", "Finance Analyst" := "ANF Finance"]

  function TeamForRole(role: string): (team: string)
    ensures role !in TeamMap ==> team == "ANF"
    ensures role in TeamMap ==> team == TeamMap[role]
  {
    if role in TeamMap then TeamMap[role] else "ANF"
  }

  /** The demo's teams are those the v2 generator gives the same roles. */
  lemma TeamsAgreeWithV2(role: string)
    requires role in TeamMap
    ensures TeamForRole(role) == MeetingTranscriptsV2.TeamForRole(role)
  {
  }

  /** The turns as the participant scan reads them: speaker and role. */
  function Voices(dialogue: seq<Turn>): (r: seq<MeetingTranscriptsV2.Entry>)
    ensures |r| == |dialogue|
    ensures forall i :: 0 <= i < |r| ==> r[i].speaker == dialogue[i].speaker && r[i].role == dialogue[i].role
  {
    seq(|dialogue|, i requires 0 <= i < |dialogue| =>
      MeetingTranscriptsV2.Entry("", dialogue[i].speaker, dialogue[i].role, dialogue[i].text))
  }

  function ParticipantLines(participants: seq<MeetingTranscriptsV2.Attendee>): (r: seq<string>)
    ensures |r| == |participants|
    ensures forall i :: 0 <= i < |r| ==>
              r[i] == "  - " + participants[i].name + " (" + participants[i].role + ") - " + TeamForRole(participants[i].role)
  {
    seq(|participants|, i requires 0 <= i < |participants| =>
      "  - " + participants[i].name + " (" + participants[i].role + ") - " + TeamForRole(participants[i].role))
  }

  predicate AllStamped(dialogue: seq<Turn>) {
    forall i :: 0 <= i < |dialogue| ==> dialogue[i].timestamp.Some?
  }

  function TurnLines(dialogue: seq<Turn>): (r: seq<string>)
    requires AllStamped(dialogue)
    ensures |r| == |dialogue|
    ensures forall i :: 0 <= i < |r| ==>
              r[i] == dialogue[i].timestamp.value + " " + dialogue[i].speaker + ": " + dialogue[i].text
  {
    seq(|dialogue|, i requires 0 <= i < |dialogue| =>
      dialogue[i].timestamp.value + " " + dialogue[i].speaker + ": " + dialogue[i].text)
  }

  /** The two action items, both Sarah Chen's and due the Friday after the meeting. */
  function LessonsItems(date: Day): seq<MeetingTranscripts.ActionItem> {
    var due := Some(DateText(NextFriday(date)));
    [MeetingTranscripts.ActionItem("Add learnings to knowledge base", "Sarah Chen", due),
     MeetingTranscripts.ActionItem("Share insights with broader team", "Sarah Chen", due)]
  }

  /** The demo's action items are those the v2 generator writes for a lessons-learned
      meeting. */
  lemma ItemsAgreeWithV2(date: Day)
    ensures LessonsItems(date) == MeetingTranscriptsV2.ActionItems(MeetingTranscriptsV2.LessonsLearned, date)
  {
    var items := MeetingTranscriptsV2.ActionItems(MeetingTranscriptsV2.LessonsLearned, date);
    assert |items| == 2;
  }

  function LessonsReferences(storeId: string): seq<string> {
    ["Historical Store: " + storeId + " (electrical variance analysis)",
     "Vendor: TempMaster (backup vendor with better pricing)"]
  }

  /** The tag line's text after `TAGS: `, as one entry. */
  function TagList(storeId: string): seq<string> {
    [storeId + ", electrical-variance, vendor-comparison, cost-savings"]
  }

  /** The lines of the transcript, given the minutes read off the last stamp. */
  function TranscriptLines(dialogue: seq<Turn>, storeId: string, date: Day, duration: nat): seq<string>
    requires AllStamped(dialogue)
  {
    MeetingTranscriptsV2.Assemble(
      MeetingTranscriptsV2.HeaderLines("Lessons Learned", DateText(date),
                                       ParticipantLines(MeetingTranscriptsV2.FirstAppearances(Voices(dialogue))),
                                       FormatDuration(duration), storeId),
      TurnLines(dialogue), TagList(storeId), LessonsItems(date), LessonsReferences(storeId))
  }

  /** `format_dialogue_as_transcript`: the lines joined by newlines. An empty dialogue, a
      last turn without a readable stamp or any turn without a stamp raises. */
  function FormatDialogueAsTranscript(dialogue: seq<Turn>, storeId: string, date: Day): (r: Result<string>)
    ensures dialogue == [] ==> r == Err("IndexError")
    ensures r.Ok? ==> AllStamped(dialogue)
    ensures (dialogue != [] && !AllStamped(dialogue) && dialogue[|dialogue| - 1].timestamp.Some?
             && StampMinutes(dialogue[|dialogue| - 1].timestamp.value).Ok?) ==> r == Err("KeyError")
  {
    if dialogue == [] then Err("IndexError")
    else
      var last := dialogue[|dialogue| - 1];
      if last.timestamp.None? then Err("KeyError")
      else
        var duration := StampMinutes(last.timestamp.value);
        if duration.Err? then Err(duration.error)
        else if !AllStamped(dialogue) then Err("KeyError")
        else Ok(Join(TranscriptLines(dialogue, storeId, date, duration.value), "\n"))
  }

  /** Turn `i` of the entries is spoken by `Cast[Order[i]]`. */
  predicate FollowsOrder(d: seq<MeetingTranscriptsV2.Entry>) {
    |d| == |Order| && forall i :: 0 <= i < |d| ==> d[i].speaker == Cast[Order[i]].name && d[i].role == Cast[Order[i]].role
  }

  /** The generated dialogue lists its four people once each, in the order they first
      speak, with their roles. */
  lemma ScriptParticipants(texts: seq<string>)
    requires |texts| == |Order|
    ensures MeetingTranscriptsV2.FirstAppearances(Voices(Script(texts))) == Cast
  {
    var d := Voices(Script(texts));
    assert FollowsOrder(d);
    FirstFive(d);
    LaterTurnsRepeat(d, 11);
    assert d[..11] == d;
  }

  /** The first five turns introduce the four people. */
  lemma FirstFive(d: seq<MeetingTranscriptsV2.Entry>)
    requires FollowsOrder(d)
    ensures MeetingTranscriptsV2.FirstAppearances(d[..5]) == Cast
  {
    assert d[..0] == [];
    Introduce(d, 1, 0);
    Introduce(d, 2, 1);
    Introduce(d, 3, 2);
    Repeat(d, 4, 3);
    Introduce(d, 5, 3);
    assert Cast[..4] == Cast;
  }

  /** Every turn after the fifth is spoken by someone already listed. */
  lemma {:induction false} LaterTurnsRepeat(d: seq<MeetingTranscriptsV2.Entry>, k: nat)
    requires FollowsOrder(d) && 5 <= k <= |d|
    requires MeetingTranscriptsV2.FirstAppearances(d[..5]) == Cast
    ensures MeetingTranscriptsV2.FirstAppearances(d[..k]) == Cast
  {
    if k > 5 {
      LaterTurnsRepeat(d, k - 1);
      assert Cast[..4] == Cast;
      Repeat(d, k, 4);
    }
  }

  lemma CastNamesDistinct()
    ensures forall i, j :: 0 <= i < j < |Cast| ==> Cast[i].name != Cast[j].name
  {
    assert Cast[0].name[0] == 'S' && Cast[1].name[0] == 'D' && Cast[2].name[0] == 'L' && Cast[3].name[0] == 'T';
  }

  /** A turn by the next member of the cast adds them to the list. */
  lemma Introduce(d: seq<MeetingTranscriptsV2.Entry>, k: nat, m: Member)
    requires FollowsOrder(d) && 0 < k <= |d| && Order[k - 1] == m
    requires MeetingTranscriptsV2.FirstAppearances(d[..k - 1]) == Cast[..m]
    ensures MeetingTranscriptsV2.FirstAppearances(d[..k]) == Cast[..m + 1]
  {
    FirstStep(d, k);
    CastNamesDistinct();
    assert Cast[m].name !in MeetingTranscriptsV2.Names(Cast[..m]);
    assert MeetingTranscriptsV2.Attendee(d[k - 1].speaker, d[k - 1].role) == Cast[m];
    assert Cast[..m] + [Cast[m]] == Cast[..m + 1];
  }

  /** A turn by a member already listed leaves the list as it is. */
  lemma Repeat(d: seq<MeetingTranscriptsV2.Entry>, k: nat, m: nat)
    requires FollowsOrder(d) && 0 < k <= |d| && m <= |Cast| && Order[k - 1] < m
    requires MeetingTranscriptsV2.FirstAppearances(d[..k - 1]) == Cast[..m]
    ensures MeetingTranscriptsV2.FirstAppearances(d[..k]) == Cast[..m]
  {
    FirstStep(d, k);
    var j := Order[k - 1];
    assert Cast[..m][j] == Cast[j];
    assert d[k - 1].speaker in MeetingTranscriptsV2.Names(Cast[..m]);
  }

  lemma FirstStep(d: seq<MeetingTranscriptsV2.Entry>, k: nat)
    requires 0 < k <= |d|
    ensures var prev, e := MeetingTranscriptsV2.FirstAppearances(d[..k - 1]), d[k - 1];
            MeetingTranscriptsV2.FirstAppearances(d[..k])
            == if e.speaker in MeetingTranscriptsV2.Names(prev) then prev
               else prev + [MeetingTranscriptsV2.Attendee(e.speaker, e.role)]
  {
    assert d[..k][..k - 1] == d[..k - 1];
  }

  /** The transcript of a generated dialogue: its DURATION is the whole minutes on the
      clock when the last turn starts, and it lists the four people in order. */
  lemma GeneratedTranscript(storeId: string, data: HistoricalData, today: Day, formatPct: real -> string,
                            gaps: seq<int>, date: Day)
    requires GapsInRange(gaps) && |gaps| == |Order|
    requires LessonsLearnedDialogue(storeId, data, today, formatPct, gaps).Ok?
    ensures var dialogue := LessonsLearnedDialogue(storeId, data, today, formatPct, gaps).value;
            && MeetingTranscriptsV2.FirstAppearances(Voices(dialogue)) == Cast
            && FormatDialogueAsTranscript(dialogue, storeId, date)
               == Ok(Join(TranscriptLines(dialogue, storeId, date, StartTime(gaps, 10) / 60), "\n"))
  {
    var texts := Texts(storeId, data, today - data.completionDate, formatPct(VariancePct(data).value));
    assert LessonsLearnedDialogue(storeId, data, today, formatPct, gaps).value == Stamped(Script(texts), gaps);
    StampedTranscript(texts, gaps, storeId, date);
  }

  lemma StampedTranscript(texts: seq<string>, gaps: seq<int>, storeId: string, date: Day)
    requires |texts| == |Order| && GapsInRange(gaps) && |gaps| == |Order|
    ensures var dialogue := Stamped(Script(texts), gaps);
            && MeetingTranscriptsV2.FirstAppearances(Voices(dialogue)) == Cast
            && FormatDialogueAsTranscript(dialogue, storeId, date)
               == Ok(Join(TranscriptLines(dialogue, storeId, date, StartTime(gaps, 10) / 60), "\n"))
  {
    var script := Script(texts);
    var dialogue := Stamped(script, gaps);
    ScriptParticipants(texts);
    assert Voices(dialogue) == Voices(script);
    StartTimeNonNegative(gaps, 10);
    StampMinutesOfFormat(StartTime(gaps, 10));
    assert dialogue[10].timestamp == Some(FormatTimestamp(StartTime(gaps, 10)));
    FormatStamped(dialogue, storeId, date, StartTime(gaps, 10) / 60);
  }

  /** A dialogue whose turns all carry stamps and whose last stamp reads as `minutes`
      formats without error. */
  lemma FormatStamped(dialogue: seq<Turn>, storeId: string, date: Day, minutes: nat)
    requires dialogue != [] && AllStamped(dialogue)
    requires StampMinutes(dialogue[|dialogue| - 1].timestamp.value) == Ok(minutes)
    ensures FormatDialogueAsTranscript(dialogue, storeId, date)
            == Ok(Join(TranscriptLines(dialogue, storeId, date, minutes), "\n"))
  {
  }
}
