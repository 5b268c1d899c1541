/** The template-driven meeting transcript generator: who takes part, who speaks on each
    topic, what they say, the running `[HH:MM:SS]` clock, the tags, action items and
    references drawn from the dialogue, and the text layout of the transcript. The
    template, the gathered structured context, the persona catalogue and the vendor names
    are inputs; every `random` draw is a parameter. */
module MeetingTranscripts {
  import opened Common
  import opened Personas
  import opened Timestamps
  import opened StringOrder
  import opened TranscriptText

  // ------------------------------------------------------------------------
  // _select_participants
  // ------------------------------------------------------------------------

  /** An entry of `config['participants']`; `role` is an optional key. */
  datatype ConfiguredParticipant = ConfiguredParticipant(name: string, role: Option<string>)

  /** A selected participant with the persona it was built from. */
  datatype Participant = Participant(name: string, role: string, team: string, persona: Persona)

  /** The participants named in the configuration, in order; an unknown name raises. */
  function FromConfig(entries: seq<ConfiguredParticipant>, catalogue: seq<Persona>): (r: Result<seq<Participant>>)
    ensures r.Err? ==> r.error == "ValueError"
    ensures r.Ok? ==> |r.value| == |entries|
    decreases |entries|
  {
    if entries == [] then Ok([])
    else
      match GetPersona(entries[0].name, catalogue)
      case Err(err) => Err(err)
      case Ok(persona) =>
        var rest := FromConfig(entries[1..], catalogue);
        if rest.Err? then rest else Ok([ConfiguredAs(entries[0], persona)] + rest.value)
  }

  /** The configured list succeeds exactly when every name is a known persona, and then
      holds one participant per entry, in order. */
  lemma {:induction false} FromConfigMeaning(entries: seq<ConfiguredParticipant>, catalogue: seq<Persona>)
    ensures var r := FromConfig(entries, catalogue);
            && (r.Ok? <==> forall i :: 0 <= i < |entries| ==> GetPersona(entries[i].name, catalogue).Ok?)
            && (r.Ok? ==> forall i :: 0 <= i < |entries| ==>
                  r.value[i] == ConfiguredAs(entries[i], GetPersona(entries[i].name, catalogue).value))
    decreases |entries|
  {
    if entries != [] {
      var tail := entries[1..];
      FromConfigMeaning(tail, catalogue);
      var first := GetPersona(entries[0].name, catalogue);
      var r := FromConfig(entries, catalogue);
      var rest := FromConfig(tail, catalogue);
      if first.Err? {
        assert r.Err?;
      } else if rest.Err? {
        assert r.Err?;
        var k :| 0 <= k < |tail| && GetPersona(tail[k].name, catalogue).Err?;
        assert entries[k + 1] == tail[k];
      } else {
        var v := [ConfiguredAs(entries[0], first.value)] + rest.value;
        assert r == Ok(v);
        forall i | 0 <= i < |entries|
          ensures GetPersona(entries[i].name, catalogue).Ok?
          ensures v[i] == ConfiguredAs(entries[i], GetPersona(entries[i].name, catalogue).value)
        {
          if i > 0 {
            assert entries[i] == tail[i - 1];
            assert v[i] == rest.value[i - 1];
          }
        }
      }
    }
  }

  /** A configured entry as a participant: its own name, its `role` when given (else the
      persona's), and the persona's team or the empty text. */
  function ConfiguredAs(e: ConfiguredParticipant, persona: Persona): (p: Participant)
    ensures p.name == e.name && p.persona == persona && p.team == TeamOrEmpty(persona)
    ensures p.role == if e.role.Some? then e.role.value else persona.role
  {
    Participant(e.name, if e.role.Some? then e.role.value else persona.role, TeamOrEmpty(persona), persona)
  }

  /** The first persona of each required role that has one, in role order; such a
      persona without a `team` key raises `KeyError`. */
  function FromRoles(roles: seq<string>, catalogue: seq<Persona>): (r: Result<seq<Participant>>)
    ensures r.Ok? <==> forall i :: 0 <= i < |roles| && GetPersonaByRole(roles[i], catalogue).Some? ==>
                          GetPersonaByRole(roles[i], catalogue).value.team.Some?
    ensures r.Err? ==> r.error == "KeyError"
    ensures r.Ok? ==> |r.value| <= |roles|
    ensures r.Ok? ==> forall j :: 0 <= j < |r.value| ==>
              && GetPersonaByRole(r.value[j].role, catalogue) == Some(r.value[j].persona)
              && r.value[j].name == r.value[j].persona.name
              && r.value[j].role == r.value[j].persona.role
              && r.value[j].role in roles
              && r.value[j].persona.team.Some? && r.value[j].team == r.value[j].persona.team.value
    decreases |roles|
  {
    if roles == [] then Ok([])
    else
      var rest := FromRoles(roles[1..], catalogue);
      assert forall i :: 1 <= i < |roles| ==> roles[i] == roles[1..][i - 1];
      match GetPersonaByRole(roles[0], catalogue)
      case None => rest
      case Some(persona) =>
        if persona.team.None? then Err("KeyError")
        else if rest.Err? then rest
        else Ok([Participant(persona.name, persona.role, persona.team.value, persona)] + rest.value)
  }

  /** `_select_participants`: the configured list when there is one, else the template's
      required roles. */
  function SelectParticipants(configured: Option<seq<ConfiguredParticipant>>, requiredRoles: seq<string>,
                              catalogue: seq<Persona>): Result<seq<Participant>>
  {
    match configured
    case Some(entries) => FromConfig(entries, catalogue)
    case None => FromRoles(requiredRoles, catalogue)
  }

  predicate HasRole(ps: seq<Participant>, role: string) {
    exists j :: 0 <= j < |ps| && ps[j].role == role
  }

  lemma HasRoleExtend(p: Participant, ps: seq<Participant>, role: string)
    requires HasRole(ps, role) || p.role == role
    ensures HasRole([p] + ps, role)
  {
    if p.role == role {
      assert ([p] + ps)[0].role == role;
    } else {
      var j :| 0 <= j < |ps| && ps[j].role == role;
      assert ([p] + ps)[j + 1] == ps[j];
    }
  }

  /** Every required role that some persona has is filled. */
  lemma {:induction false} FromRolesCovers(roles: seq<string>, catalogue: seq<Persona>)
    ensures var r := FromRoles(roles, catalogue);
            r.Ok? ==> forall i :: 0 <= i < |roles| && GetPersonaByRole(roles[i], catalogue).Some? ==>
              HasRole(r.value, roles[i])
    decreases |roles|
  {
    var r := FromRoles(roles, catalogue);
    if roles != [] && r.Ok? {
      FromRolesCovers(roles[1..], catalogue);
      var rest := FromRoles(roles[1..], catalogue);
      var first := GetPersonaByRole(roles[0], catalogue);
      if first.Some? {
        var p := Participant(first.value.name, first.value.role, first.value.team.value, first.value);
        assert r.value == [p] + rest.value;
        forall i | 0 <= i < |roles| && GetPersonaByRole(roles[i], catalogue).Some?
          ensures HasRole(r.value, roles[i])
        {
          if i > 0 {
            assert roles[1..][i - 1] == roles[i];
          }
          HasRoleExtend(p, rest.value, roles[i]);
        }
      } else {
        forall i | 1 <= i < |roles| ensures roles[1..][i - 1] == roles[i] { }
      }
    }
  }

  // ------------------------------------------------------------------------
  // _select_speakers_for_topic
  // ------------------------------------------------------------------------

  /** The topic-to-role table, in its key order. */
  const TopicRoles: seq<(string, seq<string>)> := [
    ("cost", ["General Contractor", "Project Manager", "Finance"]),
    ("timeline", ["Project Manager", "General Contractor"]),
    ("constraints", ["General Contractor", "Store Manager", "Project Manager"]),
    ("vendor", ["Procurement Manager", "General Contractor"]),
    ("design", ["Architect", "Design Lead", "Project Manager"])
  ]

  /** The roles of the first `k` table entries whose key occurs in the lower-cased topic,
      concatenated as `extend` leaves them. */
  function RelevantRoles(topic: string, k: nat): (roles: seq<string>)
    requires k <= |TopicRoles|
    ensures forall r :: r in roles <==> exists i :: 0 <= i < k && Contains(Lower(topic), TopicRoles[i].0) && r in TopicRoles[i].1
  {
    if k == 0 then []
    else
      var prev := RelevantRoles(topic, k - 1);
      prev + (if Contains(Lower(topic), TopicRoles[k - 1].0) then TopicRoles[k - 1].1 else [])
  }

  /** `[p for p in participants if p['role'] in roles]`. */
  function WithRoles(ps: seq<Participant>, roles: seq<string>): (r: seq<Participant>)
    ensures |r| <= |ps|
    ensures forall i :: 0 <= i < |r| ==> r[i] in ps && r[i].role in roles
    ensures forall i :: 0 <= i < |ps| && ps[i].role in roles ==> ps[i] in r
    decreases |ps|
  {
    if ps == [] then []
    else
      var rest := WithRoles(ps[1..], roles);
      assert forall i :: 1 <= i < |ps| ==> ps[i] == ps[1..][i - 1];
      if ps[0].role in roles then [ps[0]] + rest else rest
  }

  /** Each participant as an option: present exactly when its role is among `roles`. */
  function ByRole(ps: seq<Participant>, roles: seq<string>): (opts: seq<Option<Participant>>)
    ensures |opts| == |ps|
  {
    seq(|ps|, i requires 0 <= i < |ps| => if ps[i].role in roles then Some(ps[i]) else None)
  }

  /** The filter is the order-preserving selection of the participants with those roles. */
  lemma {:induction false} WithRolesIsSelection(ps: seq<Participant>, roles: seq<string>)
    ensures WithRoles(ps, roles) == Values(ByRole(ps, roles))
    decreases |ps|
  {
    if ps != [] {
      var opts := ByRole(ps, roles);
      WithRolesIsSelection(ps[1..], roles);
      assert opts[1..] == ByRole(ps[1..], roles);
      ValuesCons(opts);
    }
  }

  /** The filter keeps participant order, repeats no one and leaves out no participant
      whose role is among `roles`; the positions it took them from are returned. */
  lemma WithRolesInOrder(ps: seq<Participant>, roles: seq<string>) returns (idx: seq<int>)
    ensures PickedInOrder(ByRole(ps, roles), WithRoles(ps, roles), idx)
  {
    WithRolesIsSelection(ps, roles);
    idx := ValuesInOrder(ByRole(ps, roles));
  }

  /** The filter holds one participant per participant whose role is among `roles`. */
  lemma WithRolesCount(ps: seq<Participant>, roles: seq<string>)
    ensures |WithRoles(ps, roles)| == |set i | 0 <= i < |ps| && ps[i].role in roles|
  {
    var opts := ByRole(ps, roles);
    var idx := WithRolesInOrder(ps, roles);
    PickedCount(opts, WithRoles(ps, roles), idx);
    assert (set i | 0 <= i < |opts| && opts[i].Some?) == set i | 0 <= i < |ps| && ps[i].role in roles;
  }

  /** The speakers of a topic as `_select_speakers_for_topic` chooses them. */
  function SpeakersFor(topic: string, participants: seq<Participant>): seq<Participant> {
    var roles := RelevantRoles(topic, |TopicRoles|);
    if roles == [] then participants
    else
      var speakers := WithRoles(participants, roles);
      if speakers == [] then participants else speakers
  }

  /** `_select_speakers_for_topic`: the relevant roles are collected key by key, then the
      participants filtered by them. */
  method SelectSpeakersForTopic(topic: string, participants: seq<Participant>) returns (speakers: seq<Participant>)
    ensures speakers == SpeakersFor(topic, participants)
  {
    var relevant: seq<string> := [];
    var lowered := Lower(topic);
    for k := 0 to |TopicRoles|
      invariant relevant == RelevantRoles(topic, k)
    {
      var (key, roles) := TopicRoles[k];
      if Contains(lowered, key) {
        relevant := relevant + roles;
      }
    }
    if relevant == [] {
      return participants;
    }
    speakers := WithRoles(participants, relevant);
    if speakers == [] {
      speakers := participants;
    }
  }

  /** Without a matching key every participant speaks; with one, the participants whose
      role is relevant speak, or everyone when none is; the speakers are never empty unless
      there are no participants. */
  lemma SpeakersChoice(topic: string, participants: seq<Participant>)
    ensures var s := SpeakersFor(topic, participants);
            && (|s| > 0 <==> |participants| > 0)
            && (forall i :: 0 <= i < |s| ==> s[i] in participants)
            && (RelevantRoles(topic, |TopicRoles|) == [] ==> s == participants)
            && ((exists i :: 0 <= i < |participants| && participants[i].role in RelevantRoles(topic, |TopicRoles|))
                  ==> forall i :: 0 <= i < |s| ==> s[i].role in RelevantRoles(topic, |TopicRoles|))
            && ((forall i :: 0 <= i < |participants| ==> participants[i].role !in RelevantRoles(topic, |TopicRoles|))
                  ==> s == participants)
  {
    var roles := RelevantRoles(topic, |TopicRoles|);
    if roles != [] {
      var w := WithRoles(participants, roles);
      if w == [] {
        assert forall i :: 0 <= i < |participants| ==> participants[i].role !in roles;
      } else {
        assert w[0] in participants && w[0].role in roles;
      }
    }
  }

  // ------------------------------------------------------------------------
  // _generate_dialogue_text
  // ------------------------------------------------------------------------

  /** The historical project gathered for the meeting. */
  datatype HistoricalRef = HistoricalRef(storeId: string, electricalActualCost: Option<int>)

  /** The structured context of a meeting: a historical project, a build template, and
      the market's regional modifiers as (category, rendered multiplier) pairs in order. */
  datatype ContextData = ContextData(
    historicalProject: Option<HistoricalRef>, template: Option<string>, regionalModifiers: seq<(string, string)>)

  const LandlordLine: string :=
    "The landlord requires all electrical work to use their approved vendor list. This limits our negotiation flexibility."

  const GenericLines: seq<string> := [
    "Let me check the numbers on that.",
    "That aligns with what we've seen in similar projects.",
    "We should validate that against the historical data.",
    "I'll follow up with more details by end of week."
  ]

  /** `random.choice(phrases) if phrases else ""`, the draw being `pick`. */
  function Phrase(persona: Persona, pick: nat): string {
    if persona.phrases == [] then "" else persona.phrases[pick % |persona.phrases|]
  }

  /** The multiplier a modifier list holds for a category, if any. */
  function ModifierFor(mods: seq<(string, string)>, category: string): (r: Option<string>)
    ensures r.Some? <==> exists i :: 0 <= i < |mods| && mods[i].0 == category
    decreases |mods|
  {
    if mods == [] then None
    else if mods[0].0 == category then Some(mods[0].1)
    else
      assert forall i :: 1 <= i < |mods| ==> mods[i] == mods[1..][i - 1];
      ModifierFor(mods[1..], category)
  }

  /** A topic on which the speaker says nothing: a regional or modifier topic that is not
      a first cost turn or a constraint topic, without an electrical modifier. */
  predicate Silent(topic: string, ctx: ContextData, turnIndex: nat) {
    var t := Lower(topic);
    && !(Contains(t, "cost") && turnIndex == 0)
    && !Contains(t, "constraint")
    && (Contains(t, "regional") || Contains(t, "modifier"))
    && ModifierFor(ctx.regionalModifiers, "electrical").None?
  }

  /** `_generate_dialogue_text`; `None` where the source falls off the end. */
  function DialogueText(speaker: Participant, topic: string, ctx: ContextData, turnIndex: nat, pick: nat): (r: Option<string>)
    ensures r.None? <==> Silent(topic, ctx, turnIndex)
    ensures Contains(Lower(topic), "cost") && turnIndex == 0 && ctx.historicalProject.None? ==>
              r == Some("We're looking at around $35,000 for the electrical upgrade. " + Phrase(speaker.persona, pick))
    ensures !(Contains(Lower(topic), "cost") && turnIndex == 0) && Contains(Lower(topic), "constraint") ==>
              r == Some(LandlordLine)
  {
    var t := Lower(topic);
    if Contains(t, "cost") && turnIndex == 0 then
      match ctx.historicalProject
      case Some(h) =>
        var cost := if h.electricalActualCost.Some? then h.electricalActualCost.value else 35000;
        Some("Based on what we did at " + h.storeId + ", we saw $" + WithCommas(cost) + " for electrical work. "
             + Phrase(speaker.persona, pick))
      case None =>
        Some("We're looking at around $35,000 for the electrical upgrade. " + Phrase(speaker.persona, pick))
    else if Contains(t, "constraint") then Some(LandlordLine)
    else if Contains(t, "regional") || Contains(t, "modifier") then
      match ModifierFor(ctx.regionalModifiers, "electrical")
      case Some(m) => Some("Cincinnati shows " + m + "x for electrical work this year due to union contracts.")
      case None => None
    else Some(GenericLines[pick % |GenericLines|])
  }

  // ------------------------------------------------------------------------
  // _generate_dialogue
  // ------------------------------------------------------------------------

  /** One dialogue entry; `text` is `None` where the text generator returned nothing. */
  datatype Turn = Turn(timestamp: string, speaker: string, text: Option<string>)

  /** Every topic draws `random.randint(2, 4)` turns. */
  predicate TurnCountsInRange(turns: seq<nat>) {
    forall i :: 0 <= i < |turns| ==> 2 <= turns[i] <= 4
  }

  /** The draws a dialogue consumes: a turn count per topic, and a phrase pick and a gap per turn. */
  predicate DrawsFit(topics: seq<string>, turns: seq<nat>, picks: seq<nat>, gaps: seq<int>) {
    |topics| == |turns| && TurnCountsInRange(turns) && GapsInRange(gaps)
    && |picks| == |gaps| == Sum(turns)
  }

  lemma {:induction false} PrefixSumFits(turns: seq<nat>, k: nat)
    requires k < |turns|
    ensures Sum(turns[..k]) + turns[k] == Sum(turns[..k + 1]) <= Sum(turns)
    decreases |turns| - k
  {
    SumStep(turns, k);
    if k + 1 < |turns| {
      PrefixSumFits(turns, k + 1);
    } else {
      assert turns[..k + 1] == turns;
    }
  }

  lemma PrefixSumBound(turns: seq<nat>, t: nat)
    requires t <= |turns|
    ensures Sum(turns[..t]) <= Sum(turns)
  {
    if t < |turns| {
      PrefixSumFits(turns, t);
    } else {
      assert turns[..t] == turns;
    }
  }

  /** Turn `i` of a topic whose first turn is turn `pos` of the meeting: speakers take
      turns in order, each stamped with the meeting clock. */
  function TurnAt(topic: string, speakers: seq<Participant>, ctx: ContextData, i: nat, pos: nat,
                  picks: seq<nat>, gaps: seq<int>): Turn
    requires |speakers| > 0 && GapsInRange(gaps) && pos + i < |picks| && pos + i <= |gaps|
  {
    var speaker := speakers[i % |speakers|];
    Turn(TurnStamp(gaps, pos + i), speaker.name, DialogueText(speaker, topic, ctx, i, picks[pos + i]))
  }

  /** The turns of one topic, the first of them being turn `pos` of the meeting. */
  function TopicTurns(topic: string, speakers: seq<Participant>, ctx: ContextData, count: nat, pos: nat,
                      picks: seq<nat>, gaps: seq<int>): (r: seq<Turn>)
    requires |speakers| > 0 && GapsInRange(gaps) && pos + count <= |picks| && pos + count <= |gaps|
    ensures |r| == count
    ensures forall i :: 0 <= i < count ==> r[i] == TurnAt(topic, speakers, ctx, i, pos, picks, gaps)
  {
    seq(count, i requires 0 <= i < count => TurnAt(topic, speakers, ctx, i, pos, picks, gaps))
  }

  /** The dialogue of the first `t` topics; `ZeroDivisionError` at a topic without speakers. */
  function DialogueUpTo(topics: seq<string>, turns: seq<nat>, participants: seq<Participant>, ctx: ContextData,
                        picks: seq<nat>, gaps: seq<int>, t: nat): (r: Result<seq<Turn>>)
    requires DrawsFit(topics, turns, picks, gaps) && t <= |topics|
    ensures r.Ok? ==> |r.value| == Sum(turns[..t]) <= |gaps|
    ensures r.Err? ==> r.error == "ZeroDivisionError"
    decreases t
  {
    PrefixSumBound(turns, t);
    if t == 0 then Ok([])
    else
      var prev := DialogueUpTo(topics, turns, participants, ctx, picks, gaps, t - 1);
      if prev.Err? then prev
      else
        var speakers := SpeakersFor(topics[t - 1], participants);
        if speakers == [] then Err("ZeroDivisionError")
        else
          PrefixSumFits(turns, t - 1);
          Ok(prev.value + TopicTurns(topics[t - 1], speakers, ctx, turns[t - 1], Sum(turns[..t - 1]), picks, gaps))
  }

  /** `_generate_dialogue` over the template's topics, section by section, flattened. */
  method GenerateDialogue(topics: seq<string>, turns: seq<nat>, participants: seq<Participant>, ctx: ContextData,
                          picks: seq<nat>, gaps: seq<int>) returns (r: Result<seq<Turn>>)
    requires DrawsFit(topics, turns, picks, gaps)
    ensures r == DialogueUpTo(topics, turns, participants, ctx, picks, gaps, |topics|)
  {
    var dialogue: seq<Turn> := [];
    var currentTimestamp := 0;
    for t := 0 to |topics|
      invariant DialogueUpTo(topics, turns, participants, ctx, picks, gaps, t) == Ok(dialogue)
      invariant |dialogue| == Sum(turns[..t])
      invariant currentTimestamp == StartTime(gaps, |dialogue|)
    {
      var speakers := SelectSpeakersForTopic(topics[t], participants);
      DialogueStep(topics, turns, participants, ctx, picks, gaps, t);
      if |speakers| == 0 {
        // the first turn's `i % len(speakers)` raises
        DialogueShape(topics, turns, participants, ctx, picks, gaps, |topics|);
        return Err("ZeroDivisionError");
      }
      var more;
      more, currentTimestamp := TopicDialogue(topics[t], speakers, ctx, turns[t], |dialogue|, picks, gaps, currentTimestamp);
      dialogue := dialogue + more;
    }
    return Ok(dialogue);
  }

  /** One more topic: no speakers fails, otherwise its turns are appended. */
  lemma DialogueStep(topics: seq<string>, turns: seq<nat>, participants: seq<Participant>, ctx: ContextData,
                     picks: seq<nat>, gaps: seq<int>, t: nat)
    requires DrawsFit(topics, turns, picks, gaps) && t < |topics|
    requires DialogueUpTo(topics, turns, participants, ctx, picks, gaps, t).Ok?
    ensures Sum(turns[..t]) + turns[t] == Sum(turns[..t + 1]) <= Sum(turns)
    ensures var speakers := SpeakersFor(topics[t], participants);
            var prev := DialogueUpTo(topics, turns, participants, ctx, picks, gaps, t).value;
            DialogueUpTo(topics, turns, participants, ctx, picks, gaps, t + 1)
            == if speakers == [] then Err("ZeroDivisionError")
               else Ok(prev + TopicTurns(topics[t], speakers, ctx, turns[t], Sum(turns[..t]), picks, gaps))
  {
    PrefixSumFits(turns, t);
  }

  /** The turns of one topic, appended one by one while the clock advances. */
  method TopicDialogue(topic: string, speakers: seq<Participant>, ctx: ContextData, count: nat, start: nat,
                       picks: seq<nat>, gaps: seq<int>, clock: int) returns (more: seq<Turn>, clock': int)
    requires |speakers| > 0 && GapsInRange(gaps) && start + count <= |picks| && start + count <= |gaps|
    requires clock == StartTime(gaps, start)
    ensures more == TopicTurns(topic, speakers, ctx, count, start, picks, gaps)
    ensures clock' == StartTime(gaps, start + count)
  {
    more := [];
    clock' := clock;
    ghost var topicTurns := TopicTurns(topic, speakers, ctx, count, start, picks, gaps);
    for i := 0 to count
      invariant more == topicTurns[..i]
      invariant clock' == StartTime(gaps, start + i)
    {
      var speaker := speakers[i % |speakers|];
      var text := DialogueText(speaker, topic, ctx, i, picks[start + i]);
      StartTimeNonNegative(gaps, start + i);
      var turn := Turn(FormatTimestamp(clock'), speaker.name, text);
      assert turn == TurnAt(topic, speakers, ctx, i, start, picks, gaps) == topicTurns[i];
      PrefixGrows(topicTurns, i);
      more := more + [turn];
      StartTimeStep(gaps, start + i);
      clock' := clock' + gaps[start + i];
    }
    assert topicTurns[..count] == topicTurns;
  }

  /** Turn `j` of the dialogue is stamped with the clock at its start, so the first turn is
      at `[00:00:00]` and each later one 30 to 180 seconds after the one before. */
  lemma {:induction false} DialogueStamps(topics: seq<string>, turns: seq<nat>, participants: seq<Participant>,
                                          ctx: ContextData, picks: seq<nat>, gaps: seq<int>, t: nat)
    requires DrawsFit(topics, turns, picks, gaps) && t <= |topics|
    ensures var r := DialogueUpTo(topics, turns, participants, ctx, picks, gaps, t);
            r.Ok? ==> forall j :: 0 <= j < |r.value| ==> r.value[j].timestamp == TurnStamp(gaps, j)
    decreases t
  {
    var r := DialogueUpTo(topics, turns, participants, ctx, picks, gaps, t);
    if t > 0 && r.Ok? {
      DialogueStamps(topics, turns, participants, ctx, picks, gaps, t - 1);
      PrefixSumFits(turns, t - 1);
      var prev := DialogueUpTo(topics, turns, participants, ctx, picks, gaps, t - 1).value;
      var speakers := SpeakersFor(topics[t - 1], participants);
      var pos := Sum(turns[..t - 1]);
      var topicTurns := TopicTurns(topics[t - 1], speakers, ctx, turns[t - 1], pos, picks, gaps);
      assert r.value == prev + topicTurns;
      TopicTurnsStamps(topics[t - 1], speakers, ctx, turns[t - 1], pos, picks, gaps);
      assert |prev| == pos;
      StampsExtend(prev, topicTurns, gaps, pos);
    }
  }

  lemma TopicTurnsStamps(topic: string, speakers: seq<Participant>, ctx: ContextData, count: nat, pos: nat,
                         picks: seq<nat>, gaps: seq<int>)
    requires |speakers| > 0 && GapsInRange(gaps) && pos + count <= |picks| && pos + count <= |gaps|
    ensures var r := TopicTurns(topic, speakers, ctx, count, pos, picks, gaps);
            forall i :: 0 <= i < count ==> r[i].timestamp == TurnStamp(gaps, pos + i)
  {
  }

  lemma StampsExtend(prev: seq<Turn>, more: seq<Turn>, gaps: seq<int>, pos: nat)
    requires GapsInRange(gaps) && pos == |prev| && |prev| + |more| <= |gaps|
    requires forall j :: 0 <= j < |prev| ==> prev[j].timestamp == TurnStamp(gaps, j)
    requires forall i :: 0 <= i < |more| ==> more[i].timestamp == TurnStamp(gaps, pos + i)
    ensures forall j :: 0 <= j < |prev + more| ==> (prev + more)[j].timestamp == TurnStamp(gaps, j)
  {
    forall j | |prev| <= j < |prev + more| ensures (prev + more)[j].timestamp == TurnStamp(gaps, j) {
      assert (prev + more)[j] == more[j - |prev|];
    }
  }

  /** The dialogue fails exactly when there are topics but no participants; otherwise it
      has between two and four turns per topic. */
  lemma {:induction false} DialogueShape(topics: seq<string>, turns: seq<nat>, participants: seq<Participant>,
                                         ctx: ContextData, picks: seq<nat>, gaps: seq<int>, t: nat)
    requires DrawsFit(topics, turns, picks, gaps) && t <= |topics|
    ensures var r := DialogueUpTo(topics, turns, participants, ctx, picks, gaps, t);
            && (r.Err? <==> t > 0 && participants == [])
            && (r.Ok? ==> 2 * t <= |r.value| <= 4 * t)
    decreases t
  {
    if t > 0 {
      DialogueShape(topics, turns, participants, ctx, picks, gaps, t - 1);
      SpeakersChoice(topics[t - 1], participants);
      PrefixSumFits(turns, t - 1);
    }
  }

  /** Every turn of the dialogue is spoken by one of the participants. */
  lemma {:induction false} DialogueSpeakers(topics: seq<string>, turns: seq<nat>, participants: seq<Participant>,
                                            ctx: ContextData, picks: seq<nat>, gaps: seq<int>, t: nat)
    requires DrawsFit(topics, turns, picks, gaps) && t <= |topics|
    ensures var r := DialogueUpTo(topics, turns, participants, ctx, picks, gaps, t);
            r.Ok? ==> forall j :: 0 <= j < |r.value| ==> SpokenBy(r.value[j], participants)
    decreases t
  {
    var r := DialogueUpTo(topics, turns, participants, ctx, picks, gaps, t);
    if t > 0 && r.Ok? {
      DialogueSpeakers(topics, turns, participants, ctx, picks, gaps, t - 1);
      DialogueStep(topics, turns, participants, ctx, picks, gaps, t - 1);
      var prev := DialogueUpTo(topics, turns, participants, ctx, picks, gaps, t - 1).value;
      var speakers := SpeakersFor(topics[t - 1], participants);
      SpeakersChoice(topics[t - 1], participants);
      var topicTurns := TopicTurns(topics[t - 1], speakers, ctx, turns[t - 1], Sum(turns[..t - 1]), picks, gaps);
      TopicTurnsSpeakers(topics[t - 1], speakers, ctx, turns[t - 1], Sum(turns[..t - 1]), picks, gaps, participants);
      SpokenByExtend(prev, topicTurns, participants);
    }
  }

  predicate SpokenBy(turn: Turn, participants: seq<Participant>) {
    exists p :: p in participants && p.name == turn.speaker
  }

  lemma TopicTurnsSpeakers(topic: string, speakers: seq<Participant>, ctx: ContextData, count: nat, pos: nat,
                           picks: seq<nat>, gaps: seq<int>, participants: seq<Participant>)
    requires |speakers| > 0 && GapsInRange(gaps) && pos + count <= |picks| && pos + count <= |gaps|
    requires forall i :: 0 <= i < |speakers| ==> speakers[i] in participants
    ensures var r := TopicTurns(topic, speakers, ctx, count, pos, picks, gaps);
            forall i :: 0 <= i < count ==> SpokenBy(r[i], participants)
  {
    var r := TopicTurns(topic, speakers, ctx, count, pos, picks, gaps);
    forall i | 0 <= i < count ensures SpokenBy(r[i], participants) {
      assert speakers[i % |speakers|] in participants;
    }
  }

  lemma SpokenByExtend(prev: seq<Turn>, more: seq<Turn>, participants: seq<Participant>)
    requires forall j :: 0 <= j < |prev| ==> SpokenBy(prev[j], participants)
    requires forall i :: 0 <= i < |more| ==> SpokenBy(more[i], participants)
    ensures forall j :: 0 <= j < |prev + more| ==> SpokenBy((prev + more)[j], participants)
  {
    forall j | |prev| <= j < |prev + more| ensures SpokenBy((prev + more)[j], participants) {
      assert (prev + more)[j] == more[j - |prev|];
    }
  }

  // ------------------------------------------------------------------------
  // _extract_tags
  // ------------------------------------------------------------------------

  /** The optional `context` of a meeting configuration. */
  datatype MeetingContext = MeetingContext(historicalReference: ConfigValue, costFocus: ConfigValue, constraintType: ConfigValue)

  /** `' '.join(d['text'] for d in dialogue)`; a missing text raises `TypeError`. */
  function FullText(dialogue: seq<Turn>): (r: Result<string>)
    ensures r.Err? <==> exists i :: 0 <= i < |dialogue| && dialogue[i].text.None?
    ensures r.Err? ==> r.error == "TypeError"
  {
    if exists i :: 0 <= i < |dialogue| && dialogue[i].text.None? then Err("TypeError")
    else Ok(Join(seq(|dialogue|, i requires 0 <= i < |dialogue| => dialogue[i].text.value), " "))
  }

  /** `re.findall(r'Store-\d+', text)`: left to right, each match as long as it goes. */
  function StoreMentions(text: string): (r: seq<string>)
    ensures forall i :: 0 <= i < |r| ==> StartsWith(r[i], "Store-") && |r[i]| > 6 && AllDigits(r[i][6..])
    decreases |text|
  {
    if text == [] then []
    else if StartsWith(text, "Store-") && DigitRun(text[6..]) > 0 then
      var n := 6 + DigitRun(text[6..]);
      assert text[..n][6..] == text[6..][..n - 6];
      [text[..n]] + StoreMentions(text[n..])
    else StoreMentions(text[1..])
  }

  /** A store id written out, followed by anything but a digit, is found as a whole. */
  lemma StoreMentionFound(digits: string, rest: string)
    requires digits != [] && AllDigits(digits)
    requires rest == [] || !IsDigit(rest[0])
    ensures StoreMentions("Store-" + digits + rest) == ["Store-" + digits] + StoreMentions(rest)
  {
    var text := "Store-" + digits + rest;
    assert text[6..] == digits + rest;
    DigitRunOf(digits, rest);
    assert StartsWith(text, "Store-");
    assert text[..6 + |digits|] == "Store-" + digits;
    assert text[6 + |digits|..] == rest;
  }

  /** No store id is missed: wherever `Store-` and a run of digits occur in the text,
      the id running to the end of those digits is among the mentions. A match never
      starts inside an earlier one, since `S` is neither a digit nor a later letter of
      `Store-`. */
  lemma {:induction false} StoreMentionsComplete(before: string, digits: string, after: string)
    requires digits != [] && AllDigits(digits)
    requires after == [] || !IsDigit(after[0])
    ensures "Store-" + digits in StoreMentions(before + "Store-" + digits + after)
    decreases |before|, 1
  {
    var text := before + "Store-" + digits + after;
    if before == [] {
      StoreMentionFound(digits, after);
      assert text == "Store-" + digits + after;
    } else {
      MentionFurtherOn(before, digits, after);
    }
  }

  /** One step of the scan over a non-empty `before`: whether it matches at the front or
      moves on by one character, the rest still holds the mention. */
  lemma {:induction false} MentionFurtherOn(before: string, digits: string, after: string)
    requires before != [] && digits != [] && AllDigits(digits)
    requires after == [] || !IsDigit(after[0])
    ensures "Store-" + digits in StoreMentions(before + "Store-" + digits + after)
    decreases |before|, 0
  {
    var text := before + "Store-" + digits + after;
    if StartsWith(text, "Store-") && DigitRun(text[6..]) > 0 {
      var n := 6 + DigitRun(text[6..]);
      assert text[|before|] == ("Store-" + digits + after)[0] == 'S';
      MentionsDoNotOverlap(text, |before|);
      var rest := before[n..] + "Store-" + digits + after;
      assert text[n..] == rest;
      StoreMentionsComplete(before[n..], digits, after);
    } else {
      var rest := before[1..] + "Store-" + digits + after;
      assert text[1..] == rest;
      StoreMentionsComplete(before[1..], digits, after);
    }
  }

  /** A match found at the front ends before the next `S`. */
  lemma MentionsDoNotOverlap(text: string, i: nat)
    requires StartsWith(text, "Store-") && DigitRun(text[6..]) > 0
    requires 0 < i < |text| && text[i] == 'S'
    ensures i >= 6 + DigitRun(text[6..])
  {
  }

  /** The tags configured for a meeting: the store it is about and the truthy context entries. */
  function ConfigTags(storeIdOrTopic: string, context: Option<MeetingContext>): set<string> {
    (if StartsWith(storeIdOrTopic, "Store-") then {storeIdOrTopic} else {})
    + (if context.None? then {} else
         (if Truthy(context.value.historicalReference) then {context.value.historicalReference.s} else {})
         + (if Truthy(context.value.costFocus) then {context.value.costFocus.s} else {})
         + (if Truthy(context.value.constraintType) then {context.value.constraintType.s} else {}))
  }

  /** Everything `_extract_tags` collects for a dialogue whose joined text is `fullText`. */
  function TagSet(fullText: string, storeIdOrTopic: string, context: Option<MeetingContext>, vendors: seq<string>): set<string> {
    ConfigTags(storeIdOrTopic, context) + Elems(StoreMentions(fullText))
    + (set i | 0 <= i < |vendors| && Contains(fullText, vendors[i]) :: vendors[i])
  }

  /** The vendor names among `vendors` that occur in the text. */
  function VendorsIn(text: string, vendors: seq<string>): (r: set<string>)
    ensures r == set i | 0 <= i < |vendors| && Contains(text, vendors[i]) :: vendors[i]
    decreases |vendors|
  {
    if vendors == [] then {}
    else
      var n := |vendors| - 1;
      var prev := VendorsIn(text, vendors[..n]);
      assert forall i :: 0 <= i < n ==> vendors[..n][i] == vendors[i];
      prev + (if Contains(text, vendors[n]) then {vendors[n]} else {})
  }

  /** `_extract_tags`: a set filled step by step, returned sorted. The set is kept as the
      list of what was added, repeats included. */
  method ExtractTags(dialogue: seq<Turn>, storeIdOrTopic: string, context: Option<MeetingContext>, vendors: seq<string>)
    returns (r: Result<seq<string>>)
    ensures r.Err? <==> FullText(dialogue).Err?
    ensures r.Err? ==> r.error == "TypeError"
    ensures r.Ok? ==> StrictlySorted(r.value)
    ensures r.Ok? ==> Elems(r.value) == TagSet(FullText(dialogue).value, storeIdOrTopic, context, vendors)
  {
    var tags := ConfiguredTags(storeIdOrTopic, context);
    var fullText := FullText(dialogue);
    if fullText.Err? {
      return Err(fullText.error);
    }
    var text := fullText.value;
    ElemsAppend(tags, StoreMentions(text));
    tags := tags + StoreMentions(text);
    ghost var found := Elems(tags);
    for k := 0 to |vendors|
      invariant Elems(tags) == found + VendorsIn(text, vendors[..k])
    {
      assert vendors[..k + 1][..k] == vendors[..k];
      if Contains(text, vendors[k]) {
        ElemsAppend(tags, [vendors[k]]);
        tags := tags + [vendors[k]];
      }
    }
    assert vendors[..|vendors|] == vendors;
    return Ok(SortedSet(tags));
  }

  /** The configured tags, added one by one. */
  method ConfiguredTags(storeIdOrTopic: string, context: Option<MeetingContext>) returns (tags: seq<string>)
    ensures Elems(tags) == ConfigTags(storeIdOrTopic, context)
  {
    tags := [];
    if StartsWith(storeIdOrTopic, "Store-") {
      tags := tags + [storeIdOrTopic];
    }
    if context.Some? {
      var c := context.value;
      if Truthy(c.historicalReference) {
        tags := tags + [c.historicalReference.s];
      }
      if Truthy(c.costFocus) {
        tags := tags + [c.costFocus.s];
      }
      if Truthy(c.constraintType) {
        tags := tags + [c.constraintType.s];
      }
    }
  }

  lemma ElemsAppend(a: seq<string>, b: seq<string>)
    ensures Elems(a + b) == Elems(a) + Elems(b)
  {
    forall y | y in Elems(a + b) ensures y in Elems(a) + Elems(b) {
      var i :| 0 <= i < |a + b| && (a + b)[i] == y;
      if i >= |a| { assert b[i - |a|] == y; }
    }
  }

  // ------------------------------------------------------------------------
  // _extract_action_items
  // ------------------------------------------------------------------------

  datatype ActionItem = ActionItem(description: string, owner: string, dueDate: Option<string>)

  /** `_extract_action_items`: one item per match of the action patterns, owned by the first
      participant, at most five. `matches` are the matched texts in pattern order. */
  method ExtractActionItems(dialogue: seq<Turn>, participants: seq<Participant>, matches: seq<string>)
    returns (r: Result<seq<ActionItem>>)
    ensures FullText(dialogue).Err? ==> r == Err("TypeError")
    ensures FullText(dialogue).Ok? && matches != [] && participants == [] ==> r == Err("IndexError")
    ensures (FullText(dialogue).Ok? && (matches == [] || participants != [])) <==> r.Ok?
    ensures r.Ok? ==> |r.value| == Min(|matches|, 5)
    ensures r.Ok? ==> forall i :: 0 <= i < |r.value| ==>
              r.value[i] == ActionItem(matches[i], participants[0].name, None)
  {
    var fullText := FullText(dialogue);
    if fullText.Err? {
      return Err(fullText.error);
    }
    var items: seq<ActionItem> := [];
    for k := 0 to |matches|
      invariant |items| == k
      invariant k > 0 ==> participants != []
      invariant forall i :: 0 <= i < k ==> participants != [] && items[i] == ActionItem(matches[i], participants[0].name, None)
    {
      if participants == [] {
        return Err("IndexError");
      }
      items := items + [ActionItem(matches[k], participants[0].name, None)];
    }
    return Ok(Take(items, 5));
  }

  // ------------------------------------------------------------------------
  // _map_references
  // ------------------------------------------------------------------------

  function HistoricalReference(h: HistoricalRef): string {
    "Historical Store: " + h.storeId + " (electrical: $"
      + WithCommas(if h.electricalActualCost.Some? then h.electricalActualCost.value else 0) + " actual)"
  }

  function ModifierReference(m: (string, string)): string {
    "Regional Modifier: regional_modifiers.csv (" + m.0 + ": " + m.1 + "x)"
  }

  /** `_map_references`: the historical project, then the template, then one line per
      regional modifier in order. */
  function MapReferences(ctx: ContextData): (r: seq<string>)
    ensures var h := if ctx.historicalProject.Some? then 1 else 0;
            var t := if ctx.template.Some? then 1 else 0;
            && |r| == h + t + |ctx.regionalModifiers|
            && (ctx.historicalProject.Some? ==> r[0] == HistoricalReference(ctx.historicalProject.value))
            && (ctx.template.Some? ==> r[h] == "Template: " + ctx.template.value + " (electrical_panel section)")
            && forall i :: 0 <= i < |ctx.regionalModifiers| ==> r[h + t + i] == ModifierReference(ctx.regionalModifiers[i])
  {
    (if ctx.historicalProject.Some? then [HistoricalReference(ctx.historicalProject.value)] else [])
    + (if ctx.template.Some? then ["Template: " + ctx.template.value + " (electrical_panel section)"] else [])
    + seq(|ctx.regionalModifiers|, i requires 0 <= i < |ctx.regionalModifiers| => ModifierReference(ctx.regionalModifiers[i]))
  }

  // ------------------------------------------------------------------------
  // _format_transcript
  // ------------------------------------------------------------------------

  /** `f"{n:02d}"` for any integer: a minus sign counts toward the width. */
  function Pad2(n: int): string {
    if n >= 0 then ZeroPad(n, 2) else "-" + ZeroPad(-n, 1)
  }

  /** `f"{d // 60:02d}:{d % 60:02d}"`; for a non-negative duration, the `HH:MM` that reads
      back as the duration. */
  function DurationText(d: int): (s: string)
    ensures d >= 0 ==> s == FormatDuration(d)
  {
    Pad2(d / 60) + ":" + ZeroPad(d % 60, 2)
  }

  function RenderText(text: Option<string>): string {
    if text.Some? then text.value else "None"
  }

  function ParticipantLine(p: Participant): string {
    "  - " + p.name + " (" + p.role + ") - " + p.team
  }

  function TurnLine(d: Turn): string {
    d.timestamp + " " + d.speaker + ": " + RenderText(d.text)
  }

  function ItemLine(item: ActionItem): string {
    var due := if item.dueDate.Some? && item.dueDate.value != "" then ", due: " + item.dueDate.value else "";
    "  - " + item.description + " [@" + item.owner + due + "]"
  }

  function ActionBlock(items: seq<ActionItem>): (lines: seq<string>)
    ensures items == [] ==> lines == []
    ensures items != [] ==>
              && |lines| == |items| + 1 && lines[0] == "ACTION ITEMS:"
              && forall i :: 0 <= i < |items| ==> lines[i + 1] == ItemLine(items[i])
  {
    if items == [] then []
    else ["ACTION ITEMS:"] + seq(|items|, i requires 0 <= i < |items| => ItemLine(items[i]))
  }

  function ReferenceBlock(refs: seq<string>): (lines: seq<string>)
    ensures refs == [] ==> lines == []
    ensures refs != [] ==>
              && |lines| == |refs| + 1 && lines[0] == "REFERENCES:"
              && forall i :: 0 <= i < |refs| ==> lines[i + 1] == "  - " + refs[i]
  {
    if refs == [] then []
    else ["REFERENCES:"] + seq(|refs|, i requires 0 <= i < |refs| => "  - " + refs[i])
  }

  /** The header: meeting, date, one line per participant, duration, store or topic. */
  function HeaderLines(meetingType: string, date: string, participants: seq<Participant>, duration: int,
                       storeTopic: string): (r: seq<string>)
    ensures |r| == 7 + |participants|
    ensures r[0] == "MEETING: " + Title(ReplaceChar(meetingType, '_', ' ')) && r[1] == "DATE: " + date
    ensures forall i :: 0 <= i < |participants| ==> r[3 + i] == ParticipantLine(participants[i])
    ensures r[3 + |participants|] == "DURATION: " + DurationText(duration)
    ensures r[4 + |participants|] == "STORE/TOPIC: " + storeTopic
  {
    var head := ["MEETING: " + Title(ReplaceChar(meetingType, '_', ' ')), "DATE: " + date, "PARTICIPANTS:"];
    var lines := ParticipantLines(participants);
    var tail := ["DURATION: " + DurationText(duration), "STORE/TOPIC: " + storeTopic, "---", ""];
    ConcatThree(head, lines, tail);
    assert (head + lines + tail)[3 + |participants|] == tail[0];
    assert (head + lines + tail)[4 + |participants|] == tail[1];
    head + lines + tail
  }

  function ParticipantLines(participants: seq<Participant>): (r: seq<string>)
    ensures |r| == |participants| && forall i :: 0 <= i < |participants| ==> r[i] == ParticipantLine(participants[i])
  {
    seq(|participants|, i requires 0 <= i < |participants| => ParticipantLine(participants[i]))
  }

  lemma ConcatThree<T>(head: seq<T>, mid: seq<T>, tail: seq<T>)
    ensures forall i :: 0 <= i < |head| ==> (head + mid + tail)[i] == head[i]
    ensures forall i :: 0 <= i < |mid| ==> (head + mid + tail)[|head| + i] == mid[i]
    ensures forall i :: 0 <= i < |tail| ==> (head + mid + tail)[|head| + |mid| + i] == tail[i]
  {
  }

  function DialogueLines(dialogue: seq<Turn>): (r: seq<string>)
    ensures |r| == |dialogue| && forall j :: 0 <= j < |dialogue| ==> r[j] == TurnLine(dialogue[j])
  {
    seq(|dialogue|, i requires 0 <= i < |dialogue| => TurnLine(dialogue[i]))
  }

  /** The lines of `_format_transcript`. */
  function TranscriptLines(meetingType: string, date: string, participants: seq<Participant>, dialogue: seq<Turn>,
                           duration: int, storeTopic: string, tags: seq<string>, items: seq<ActionItem>,
                           refs: seq<string>): seq<string>
  {
    HeaderLines(meetingType, date, participants, duration, storeTopic)
    + DialogueLines(dialogue)
    + ["", "---", "TAGS: " + Join(tags, ", ")]
    + (ActionBlock(items) + ReferenceBlock(refs))
  }

  /** `_format_transcript`: the lines joined by newlines. */
  function FormatTranscript(meetingType: string, date: string, participants: seq<Participant>, dialogue: seq<Turn>,
                            duration: int, storeTopic: string, tags: seq<string>, items: seq<ActionItem>,
                            refs: seq<string>): string
  {
    Join(TranscriptLines(meetingType, date, participants, dialogue, duration, storeTopic, tags, items, refs), "\n")
  }

  /** The layout: ten fixed lines, one per participant and one per turn in order (see
      `DialogueLines`), and the
      action-item and reference blocks only when they have entries. */
  lemma TranscriptLayout(meetingType: string, date: string, participants: seq<Participant>, dialogue: seq<Turn>,
                         duration: int, storeTopic: string, tags: seq<string>, items: seq<ActionItem>,
                         refs: seq<string>)
    ensures var lines := TranscriptLines(meetingType, date, participants, dialogue, duration, storeTopic, tags, items, refs);
            var p, d := |participants|, |dialogue|;
            && |lines| == 10 + p + d + (if items == [] then 0 else |items| + 1) + (if refs == [] then 0 else |refs| + 1)
            && lines[..7 + p] == HeaderLines(meetingType, date, participants, duration, storeTopic)
            && lines[7 + p..7 + p + d] == DialogueLines(dialogue)
            && lines[9 + p + d] == "TAGS: " + Join(tags, ", ")
            && lines[10 + p + d..] == ActionBlock(items) + ReferenceBlock(refs)
  {
    var h := HeaderLines(meetingType, date, participants, duration, storeTopic);
    var dl := DialogueLines(dialogue);
    ConcatParts(h, dl, ["", "---", "TAGS: " + Join(tags, ", ")], ActionBlock(items) + ReferenceBlock(refs));
  }

  /** Where each part of `h + dl + f + rest` sits. */
  lemma ConcatParts(h: seq<string>, dl: seq<string>, f: seq<string>, rest: seq<string>)
    ensures var lines := h + dl + f + rest;
            && lines[..|h|] == h
            && lines[|h|..|h| + |dl|] == dl
            && (forall j :: 0 <= j < |f| ==> lines[|h| + |dl| + j] == f[j])
            && lines[|h| + |dl| + |f|..] == rest
  {
  }

  /** A non-negative duration's line reads back as the duration in minutes. */
  lemma DurationReadsBack(duration: int)
    requires duration >= 0
    ensures StampMinutes(DurationText(duration)) == Ok(duration)
  {
    FormatDurationReadsBack(duration);
  }
}
