/** The Teams channel generator: a channel keeps its threads and gains one per configured
    theme; a thread has an id built from the channel and date, up to four participants,
    messages whose authors rotate and whose times advance 15 to 180 minutes, reactions,
    keyword tags, action items and references; the conversation index lists one entry per
    store reference of every thread in the channel. The persona catalogue and the vendor
    names found in a thread are inputs; every `random` draw is a parameter. */
module TeamsConversations {
  import opened Common
  import opened Personas
  import opened Calendar
  import opened TemplateFormat

  // ------------------------------------------------------------------------
  // Themes
  // ------------------------------------------------------------------------

  /** What a theme asks for: the roles to staff it with and the message-count range. */
  datatype ThemeTemplate = ThemeTemplate(requiredRoles: seq<string>, minMessages: nat, maxMessages: nat)

  /** `conversation_themes.get(theme, {})`, with the defaults the thread generator falls
      back to: no required roles and 3 to 5 messages. */
  function ThemeTemplateFor(theme: string): (t: ThemeTemplate)
    ensures 2 <= t.minMessages <= t.maxMessages <= 7
  {
    if theme == "supply-chain-delay" then
      ThemeTemplate(["Procurement Manager", "Project Manager", "General Contractor"], 3, 6)
    else if theme == "site-visit-followup" then
      ThemeTemplate(["Project Manager", "General Contractor"], 2, 4)
    else if theme == "template-update" then
      ThemeTemplate(["Design Lead", "Project Manager", "Architect"], 3, 5)
    else if theme == "cost-variance-discussion" then
      ThemeTemplate(["Finance", "Project Manager", "General Contractor"], 4, 7)
    else ThemeTemplate([], 3, 5)
  }

  /** One entry of `conversation_themes` in a channel configuration: the theme, the thread
      date as written in the configuration, the calendar day `strptime(date, '%Y-%m-%d')`
      reads from it, and, when the key is present, the store. */
  datatype ThemeConfig = ThemeConfig(theme: string, date: string, day: Day, storeId: Option<string>)

  /** `theme_config.get('store_id')` is truthy. */
  predicate HasStore(cfg: ThemeConfig) {
    cfg.storeId.Some? && cfg.storeId.value != ""
  }

  // ------------------------------------------------------------------------
  // _generate_thread_id
  // ------------------------------------------------------------------------

  /** No word between two dashes, or at either end, is empty. */
  predicate NoEmptyWord(words: seq<string>) {
    forall i :: 0 <= i < |words| ==> words[i] != []
  }

  /** `''.join(word[0] for word in words)`; an empty word raises `IndexError`. */
  function Initials(words: seq<string>): (r: Result<string>)
    ensures r.Ok? <==> forall i :: 0 <= i < |words| ==> words[i] != []
    ensures r.Err? ==> r.error == "IndexError"
    ensures r.Ok? ==> |r.value| == |words| && forall i :: 0 <= i < |words| ==> r.value[i] == words[i][0]
    decreases |words|
  {
    if words == [] then Ok("")
    else if words[0] == [] then Err("IndexError")
    else
      var rest := Initials(words[1..]);
      assert forall i :: 1 <= i < |words| ==> words[i] == words[1..][i - 1];
      if rest.Err? then rest else Ok([words[0][0]] + rest.value)
  }

  /** `_generate_thread_id`: the initials of the channel's dash-separated words, the date
      without dashes and the drawn counter as three digits, joined by `_`. */
  function ThreadId(channel: string, date: string, counter: nat): Result<string>
    requires 1 <= counter <= 999
  {
    match Initials(Split(channel, '-'))
    case Err(e) => Err(e)
    case Ok(prefix) => Ok(prefix + "_" + RemoveChar(date, '-') + "_" + ZeroPad(counter, 3))
  }

  /** The id exists exactly when no dash-separated word of the channel is empty; it starts
      with one initial per word followed by `_`, then the date without its dashes, and ends
      with `_` and three digits that read back as the counter. */
  lemma ThreadIdParts(channel: string, date: string, counter: nat)
    requires 1 <= counter <= 999
    ensures ThreadId(channel, date, counter).Ok? <==> NoEmptyWord(Split(channel, '-'))
    ensures var words := Split(channel, '-');
            var r := ThreadId(channel, date, counter);
            r.Ok? ==>
              && |r.value| >= |words| + 5
              && (forall i :: 0 <= i < |words| ==> r.value[i] == words[i][0])
              && r.value[|words|] == '_'
    ensures var words := Split(channel, '-');
            var r := ThreadId(channel, date, counter);
            r.Ok? ==>
              && r.value[|words| + 1..|r.value| - 4] == RemoveChar(date, '-')
              && '-' !in r.value[|words| + 1..|r.value| - 4]
              && r.value[|r.value| - 4] == '_'
              && AllDigits(r.value[|r.value| - 3..])
              && ParseNat(r.value[|r.value| - 3..]) == counter
  {
    var words := Split(channel, '-');
    var initials := Initials(words);
    var r := ThreadId(channel, date, counter);
    assert r.Ok? <==> initials.Ok?;
    assert initials.Ok? <==> NoEmptyWord(words);
    if r.Ok? {
      NatToStringBelow1000(counter);
      var prefix := initials.value;
      assert |prefix| == |words|;
      IdLayout(prefix, RemoveChar(date, '-'), ZeroPad(counter, 3), r.value);
      assert forall i :: 0 <= i < |words| ==> r.value[i] == prefix[i] == words[i][0];
    }
  }

  /** Where the parts of `prefix_date_digits` sit in the joined id. */
  lemma IdLayout(prefix: string, date: string, digits: string, id: string)
    requires |digits| == 3 && id == prefix + "_" + date + "_" + digits
    ensures |id| == |prefix| + |date| + 5
    ensures forall i :: 0 <= i < |prefix| ==> id[i] == prefix[i]
    ensures id[|prefix|] == '_' && id[|prefix| + 1..|id| - 4] == date
    ensures id[|id| - 4] == '_' && id[|id| - 3..] == digits
  {
    var middle := "_" + date + "_";
    assert id == prefix + middle + digits;
    assert id[|prefix| + 1..|id| - 4] == middle[1..|middle| - 1];
  }

  // ------------------------------------------------------------------------
  // _select_participants
  // ------------------------------------------------------------------------

  /** A thread participant as the generator records it. */
  datatype TeamsParticipant = TeamsParticipant(name: string, role: string, team: string)

  function ParticipantOf(p: Persona): TeamsParticipant {
    TeamsParticipant(p.name, p.role, TeamOrEmpty(p))
  }

  /** Looking one pool name up: its persona as a participant, or `ValueError`. */
  function PoolLookup(name: string, catalogue: seq<Persona>): (r: Result<TeamsParticipant>)
    ensures r.Ok? <==> GetPersona(name, catalogue).Ok?
    ensures r.Ok? ==> r.value == ParticipantOf(GetPersona(name, catalogue).value) && r.value.name == name
    ensures r.Err? ==> r.error == "ValueError"
  {
    match GetPersona(name, catalogue)
    case Err(e) => Err(e)
    case Ok(p) => Ok(ParticipantOf(p))
  }

  /** The lookups of the pool names, in order. */
  function PoolLookups(names: seq<string>, catalogue: seq<Persona>): (rs: seq<Result<TeamsParticipant>>)
    ensures |rs| == |names| && forall i :: 0 <= i < |names| ==> rs[i] == PoolLookup(names[i], catalogue)
  {
    seq(|names|, i requires 0 <= i < |names| => PoolLookup(names[i], catalogue))
  }

  /** The named personas in order, or the `ValueError` of the first unknown name. */
  function FromPool(names: seq<string>, catalogue: seq<Persona>): Result<seq<TeamsParticipant>> {
    Collect(PoolLookups(names, catalogue))
  }

  /** The pool succeeds exactly when every name is known, and then holds each name's
      persona in pool order; otherwise it raises `ValueError`. */
  lemma FromPoolMeaning(names: seq<string>, catalogue: seq<Persona>)
    ensures var r := FromPool(names, catalogue);
            && (r.Ok? <==> forall i :: 0 <= i < |names| ==> GetPersona(names[i], catalogue).Ok?)
            && (r.Err? ==> r.error == "ValueError")
            && (r.Ok? ==> |r.value| == |names| && forall i :: 0 <= i < |names| ==>
                  r.value[i] == ParticipantOf(GetPersona(names[i], catalogue).value) && r.value[i].name == names[i])
  {
    var rs := PoolLookups(names, catalogue);
    CollectMeaning(rs);
    var r := Collect(rs);
    if r.Err? {
      CollectErrorFrom(rs);
    }
  }

  /** The first persona of each required role that has one, in role order. */
  function FromRoles(roles: seq<string>, catalogue: seq<Persona>): (r: seq<TeamsParticipant>)
    ensures |r| <= |roles|
    decreases |roles|
  {
    if roles == [] then []
    else
      var n := |roles| - 1;
      var prev := FromRoles(roles[..n], catalogue);
      match GetPersonaByRole(roles[n], catalogue)
      case None => prev
      case Some(p) => prev + [ParticipantOf(p)]
  }

  /** Each required role as an option: the participant its first persona makes, when
      some persona has the role. */
  function Staffing(roles: seq<string>, catalogue: seq<Persona>): (opts: seq<Option<TeamsParticipant>>)
    ensures |opts| == |roles|
  {
    seq(|roles|, i requires 0 <= i < |roles| =>
      match GetPersonaByRole(roles[i], catalogue)
      case None => None
      case Some(p) => Some(ParticipantOf(p)))
  }

  /** Staffing from roles is the order-preserving selection of the staffed roles. */
  lemma {:induction false} FromRolesIsSelection(roles: seq<string>, catalogue: seq<Persona>)
    ensures FromRoles(roles, catalogue) == Values(Staffing(roles, catalogue))
    decreases |roles|
  {
    if roles != [] {
      var n := |roles| - 1;
      FromRolesIsSelection(roles[..n], catalogue);
      assert Staffing(roles, catalogue)[..n] == Staffing(roles[..n], catalogue);
    }
  }

  /** The participants follow role order, one per role that some persona has and none
      for the others; the role positions they were staffed from are returned. */
  lemma FromRolesInOrder(roles: seq<string>, catalogue: seq<Persona>) returns (idx: seq<int>)
    ensures PickedInOrder(Staffing(roles, catalogue), FromRoles(roles, catalogue), idx)
  {
    FromRolesIsSelection(roles, catalogue);
    idx := ValuesInOrder(Staffing(roles, catalogue));
  }

  /** As many participants as required roles that some persona has. */
  lemma FromRolesCount(roles: seq<string>, catalogue: seq<Persona>)
    ensures |FromRoles(roles, catalogue)| == |set i | 0 <= i < |roles| && GetPersonaByRole(roles[i], catalogue).Some?|
  {
    var opts := Staffing(roles, catalogue);
    var idx := FromRolesInOrder(roles, catalogue);
    PickedCount(opts, FromRoles(roles, catalogue), idx);
    assert (set i | 0 <= i < |opts| && opts[i].Some?) ==
           set i | 0 <= i < |roles| && GetPersonaByRole(roles[i], catalogue).Some?;
  }

  /** A required role that some persona has, as staffed by its first persona. */
  predicate StaffsRole(roles: seq<string>, catalogue: seq<Persona>, i: int, p: TeamsParticipant) {
    0 <= i < |roles| && GetPersonaByRole(roles[i], catalogue).Some? && p == ParticipantOf(GetPersonaByRole(roles[i], catalogue).value)
  }

  /** Some required role is staffed by `p`. */
  predicate DrawnFrom(roles: seq<string>, catalogue: seq<Persona>, p: TeamsParticipant) {
    exists i :: 0 <= i < |roles| && StaffsRole(roles, catalogue, i, p)
  }

  /** Everyone staffed from the roles is the first persona of one of the roles. */
  lemma {:induction false} FromRolesDrawn(roles: seq<string>, catalogue: seq<Persona>)
    ensures forall j :: 0 <= j < |FromRoles(roles, catalogue)| ==> DrawnFrom(roles, catalogue, FromRoles(roles, catalogue)[j])
    decreases |roles|
  {
    if roles != [] {
      var n := |roles| - 1;
      FromRolesDrawn(roles[..n], catalogue);
      var prev := FromRoles(roles[..n], catalogue);
      var r := FromRoles(roles, catalogue);
      var last := GetPersonaByRole(roles[n], catalogue);
      assert r == if last.Some? then prev + [ParticipantOf(last.value)] else prev;
      forall j | 0 <= j < |r|
        ensures DrawnFrom(roles, catalogue, r[j])
      {
        if j < |prev| {
          var i :| 0 <= i < n && StaffsRole(roles[..n], catalogue, i, prev[j]);
          assert roles[..n][i] == roles[i] && r[j] == prev[j];
          assert StaffsRole(roles, catalogue, i, r[j]);
        } else {
          assert StaffsRole(roles, catalogue, n, r[j]);
        }
      }
    } else {
      assert FromRoles(roles, catalogue) == [];
    }
  }

  /** Every required role that some persona has is staffed, by that role's first persona. */
  lemma {:induction false} FromRolesCovers(roles: seq<string>, catalogue: seq<Persona>)
    ensures forall i :: 0 <= i < |roles| && GetPersonaByRole(roles[i], catalogue).Some? ==>
              ParticipantOf(GetPersonaByRole(roles[i], catalogue).value) in FromRoles(roles, catalogue)
    decreases |roles|
  {
    if roles != [] {
      var n := |roles| - 1;
      FromRolesCovers(roles[..n], catalogue);
      var prev := FromRoles(roles[..n], catalogue);
      var r := FromRoles(roles, catalogue);
      var last := GetPersonaByRole(roles[n], catalogue);
      assert r == if last.Some? then prev + [ParticipantOf(last.value)] else prev;
      forall i | 0 <= i < |roles| && GetPersonaByRole(roles[i], catalogue).Some?
        ensures ParticipantOf(GetPersonaByRole(roles[i], catalogue).value) in r
      {
        var q := ParticipantOf(GetPersonaByRole(roles[i], catalogue).value);
        if i < n {
          assert roles[..n][i] == roles[i];
          assert q in prev;
          var j :| 0 <= j < |prev| && prev[j] == q;
          assert r[j] == q;
        } else {
          assert r[|prev|] == q;
        }
      }
    }
  }

  /** `_select_participants` as a specification: the first four names of the pool when
      there is a pool, else the required roles' personas. */
  function ParticipantsFor(requiredRoles: seq<string>, pool: seq<string>, catalogue: seq<Persona>): Result<seq<TeamsParticipant>> {
    if pool != [] then FromPool(Take(pool, 4), catalogue) else Ok(FromRoles(requiredRoles, catalogue))
  }

  /** At most four participants from a pool, named as in the pool; from the roles, at most
      one per role; only an unknown pool name fails. */
  lemma ParticipantsBounds(requiredRoles: seq<string>, pool: seq<string>, catalogue: seq<Persona>)
    ensures var r := ParticipantsFor(requiredRoles, pool, catalogue);
            && (r.Err? <==> exists i :: 0 <= i < Min(|pool|, 4) && GetPersona(pool[i], catalogue).Err?)
            && (r.Ok? && pool != [] ==> |r.value| == Min(|pool|, 4) && forall i :: 0 <= i < |r.value| ==> r.value[i].name == pool[i])
            && (r.Ok? && pool == [] ==> |r.value| <= |requiredRoles|)
  {
    if pool != [] {
      var names := Take(pool, 4);
      assert forall i :: 0 <= i < |names| ==> names[i] == pool[i];
      FromPoolMeaning(names, catalogue);
    }
  }

  /** `_select_participants`: participants appended one at a time. */
  method SelectParticipants(requiredRoles: seq<string>, pool: seq<string>, catalogue: seq<Persona>)
    returns (r: Result<seq<TeamsParticipant>>)
    ensures r == ParticipantsFor(requiredRoles, pool, catalogue)
  {
    if pool != [] {
      r := ParticipantsFromPool(Take(pool, 4), catalogue);
    } else {
      var participants := ParticipantsFromRoles(requiredRoles, catalogue);
      r := Ok(participants);
    }
  }

  /** The pool branch of `_select_participants`: each name looked up in turn. */
  method ParticipantsFromPool(names: seq<string>, catalogue: seq<Persona>) returns (r: Result<seq<TeamsParticipant>>)
    ensures r == FromPool(names, catalogue)
  {
    ghost var lookups := PoolLookups(names, catalogue);
    var participants: seq<TeamsParticipant> := [];
    for k := 0 to |names|
      invariant Collect(lookups[..k]) == Ok(participants)
    {
      var persona := GetPersona(names[k], catalogue);
      CollectExtend(lookups, k);
      if persona.Err? {
        CollectStaysFailed(lookups, k + 1);
        return Err(persona.error);
      }
      participants := participants + [ParticipantOf(persona.value)];
    }
    assert lookups[..|names|] == lookups;
    return Ok(participants);
  }

  /** The role branch of `_select_participants`: each role's first persona, if any. */
  method ParticipantsFromRoles(roles: seq<string>, catalogue: seq<Persona>) returns (r: seq<TeamsParticipant>)
    ensures r == FromRoles(roles, catalogue)
  {
    r := [];
    for k := 0 to |roles|
      invariant FromRoles(roles[..k], catalogue) == r
    {
      assert roles[..k + 1][..k] == roles[..k];
      var persona := GetPersonaByRole(roles[k], catalogue);
      if persona.Some? {
        r := r + [ParticipantOf(persona.value)];
      }
    }
    assert roles[..|roles|] == roles;
  }

  // ------------------------------------------------------------------------
  // _generate_reactions
  // ------------------------------------------------------------------------

  /** The six reaction emojis: thumbs up, clapping hands, light bulb, grimacing face,
      check mark button, folded hands. */
  const Emojis: seq<string> := ["\U{1F44D}", "\U{1F44F}", "\U{1F4A1}", "\U{1F62C}", "\U{2705}", "\U{1F64F}"]

  datatype Reaction = Reaction(emoji: string, count: nat)

  /** The draws behind one message's reactions: how many, and an emoji pick and a count each. */
  datatype ReactionDraws = ReactionDraws(reactionCount: nat, emojiPicks: seq<nat>, counts: seq<nat>)

  /** The first message and the message at index `total - 1` are boosted. */
  predicate Boosted(index: nat, total: nat) {
    index == 0 || index == total - 1
  }

  /** `random.randint(3, 5)` for a boosted message, `random.randint(0, 3)` otherwise, and
      `random.randint(1, 4)` per reaction. */
  predicate ReactionDrawsFit(index: nat, total: nat, d: ReactionDraws) {
    && (if Boosted(index, total) then 3 <= d.reactionCount <= 5 else d.reactionCount <= 3)
    && |d.emojiPicks| == d.reactionCount && |d.counts| == d.reactionCount
    && forall k :: 0 <= k < |d.counts| ==> 1 <= d.counts[k] <= 4
  }

  /** The reactions one message gets. */
  function ReactionsOf(index: nat, total: nat, d: ReactionDraws): (r: seq<Reaction>)
    requires ReactionDrawsFit(index, total, d)
    ensures Boosted(index, total) ==> 3 <= |r| <= 5
    ensures !Boosted(index, total) ==> |r| <= 3
    ensures forall k :: 0 <= k < |r| ==> r[k].emoji in Emojis && 1 <= r[k].count <= 4
  {
    seq(d.reactionCount, k requires 0 <= k < d.reactionCount => Reaction(Emojis[d.emojiPicks[k] % |Emojis|], d.counts[k]))
  }

  /** `_generate_reactions`: reactions appended one per draw. */
  method GenerateReactions(index: nat, total: nat, d: ReactionDraws) returns (reactions: seq<Reaction>)
    requires ReactionDrawsFit(index, total, d)
    ensures reactions == ReactionsOf(index, total, d)
  {
    reactions := [];
    for k := 0 to d.reactionCount
      invariant reactions == ReactionsOf(index, total, d)[..k]
    {
      reactions := reactions + [Reaction(Emojis[d.emojiPicks[k] % |Emojis|], d.counts[k])];
    }
  }

  /** Messages are emitted at indices below `min(message_count, len(templates))`, while
      the boost goes by `message_count`: the boosted last index is emitted exactly when
      there are no more messages drawn than templates. */
  lemma LastBoostEmitted(messageCount: nat, templateCount: nat)
    requires messageCount > 0
    ensures (messageCount - 1 < Min(messageCount, templateCount)) <==> messageCount <= templateCount
  {
  }

  // ------------------------------------------------------------------------
  // _extract_tags_from_message
  // ------------------------------------------------------------------------

  /** The four keyword rules of `_extract_tags_from_message`, each over the
      lower-cased text (the dollar sign is looked for in the text itself). */
  predicate MentionsSupplyChain(text: string) {
    Contains(Lower(text), "supply-chain") || Contains(Lower(text), "lead time")
  }

  predicate MentionsHvac(text: string) {
    Contains(Lower(text), "hvac")
  }

  predicate MentionsCost(text: string) {
    Contains(Lower(text), "cost") || Contains(Lower(text), "budget") || Contains(text, "$")
  }

  predicate MentionsSchedule(text: string) {
    Contains(Lower(text), "schedule") || Contains(Lower(text), "timeline")
  }

  /** The keyword tags in their fixed order: each present exactly when its rule
      holds, at most once. */
  function KeywordTags(text: string): (tags: seq<string>)
    ensures |tags| <= 4
    ensures "supply-chain" in tags <==> MentionsSupplyChain(text)
    ensures "hvac" in tags <==> MentionsHvac(text)
    ensures "cost" in tags <==> MentionsCost(text)
    ensures "schedule" in tags <==> MentionsSchedule(text)
    ensures forall i, j :: 0 <= i < j < |tags| ==> tags[i] != tags[j]
  {
    TagIf(MentionsSupplyChain(text), "supply-chain") + TagIf(MentionsHvac(text), "hvac")
    + TagIf(MentionsCost(text), "cost") + TagIf(MentionsSchedule(text), "schedule")
  }

  function TagIf(rule: bool, tag: string): seq<string> {
    if rule then [tag] else []
  }

  /** The tags of one message: the keyword tags, then the configured store. */
  function MessageTags(text: string, cfg: ThemeConfig): seq<string> {
    KeywordTags(text) + (if cfg.storeId.Some? then [cfg.storeId.value] else [])
  }

  /** `_extract_tags_from_message`: tags appended in rule order, then the configured store. */
  method ExtractTagsFromMessage(text: string, cfg: ThemeConfig) returns (tags: seq<string>)
    ensures tags == MessageTags(text, cfg)
    ensures cfg.storeId.Some? ==> tags[|tags| - 1] == cfg.storeId.value
  {
    tags := [];
    if MentionsSupplyChain(text) {
      tags := tags + ["supply-chain"];
    }
    ghost var rules := TagIf(MentionsSupplyChain(text), "supply-chain");
    assert tags == rules;
    if MentionsHvac(text) {
      tags := tags + ["hvac"];
    }
    rules := rules + TagIf(MentionsHvac(text), "hvac");
    assert tags == rules;
    if MentionsCost(text) {
      tags := tags + ["cost"];
    }
    rules := rules + TagIf(MentionsCost(text), "cost");
    assert tags == rules;
    if MentionsSchedule(text) {
      tags := tags + ["schedule"];
    }
    rules := rules + TagIf(MentionsSchedule(text), "schedule");
    assert tags == rules == KeywordTags(text);
    if cfg.storeId.Some? {
      tags := tags + [cfg.storeId.value];
    }
  }

  // ------------------------------------------------------------------------
  // _generate_messages
  // ------------------------------------------------------------------------

  const SupplyChainDelayTemplates: seq<string> := [
    "Heads up team - our primary HVAC vendor (CoolAir Systems) just "
      + "notified me they're pushing lead times from 6 weeks to 10 weeks for "
      + "all commercial units. This affects stores #{store_id} and others in "
      + "our pipeline.",
    "That's going to be a problem for {store_id} - we're already on a tight "
      + "schedule. Can we explore the backup vendor we used for Store #189?",
    "Good idea. Store #189's backup vendor (TempMaster) came in about 15% "
      + "higher on cost but delivered on time with good quality. For "
      + "{store_id}, that would add roughly $8K to our HVAC budget but save us "
      + "4 weeks. Let me run the numbers.",
    "I can reach out to TempMaster today to confirm they can meet our "
      + "timeline. The 15% premium might be worth it to avoid schedule delays.",
    "After running the numbers: 4-week delay would cost us ~$12K in "
      + "extended fees and lost revenue. The $8K vendor premium is actually the "
      + "cheaper option. Let's move forward with TempMaster."
  ]

  const SiteVisitFollowupTemplates: seq<string> := [
    "Following up from today's site visit for {store_id} - the electrical "
      + "panel issue Tom identified is going to need immediate attention in our "
      + "cost estimate.",
    "Agreed. I'm updating the estimate now with the $35K electrical "
      + "upgrade. Also documenting the landlord vendor restriction we "
      + "discovered.",
    "Thanks Sarah. Mike, can you send over the store traffic data so we can "
      + "schedule the electrical work during lowest impact periods?",
    "Will do - sending that over by end of day."
  ]

  const TemplateUpdateTemplates: seq<string> := [
    "Heads up team - base template v2.3 is live as of {date}. All new "
      + "stores now require 400A electrical panels instead of 200A.",
    "What's driving this change?",
    "Increased HVAC and lighting load requirements. We saw undersized "
      + "panels causing issues in 3 stores last quarter.",
    "Makes sense. This will add about $5-8K to electrical costs per store, "
      + "but better to spec it correctly upfront.",
    "Exactly. I've updated the cost model templates to reflect the new 400A standard."
  ]

  const CostVarianceTemplates: seq<string> := [
    "FYI - Store #{store_id} came in $15K under budget on electrical work. "
      + "Worth understanding what drove that variance.",
    "We used the backup vendor TempMaster who had better pricing than our "
      + "usual contractor. Quality was good, no issues.",
    "Interesting. Is TempMaster someone we should add to our primary vendor rotation?",
    "I'd recommend it. They were responsive, delivered on time, and pricing "
      + "was 12% lower than our standard rate.",
    "Let me reach out to them about establishing a preferred vendor "
      + "relationship. Could generate savings across our portfolio."
  ]

  const DefaultTemplates: seq<string> := [
    "Update on {store_id}.",
    "Thanks for the info.",
    "Let me follow up on that."
  ]

  /** `_get_message_templates_for_theme`: five, four, five and five templates for the
      known themes, three otherwise. */
  function MessageTemplates(theme: string): (t: seq<string>)
    ensures |t| == TemplateCount(theme)
  {
    if theme == "supply-chain-delay" then SupplyChainDelayTemplates
    else if theme == "site-visit-followup" then SiteVisitFollowupTemplates
    else if theme == "template-update" then TemplateUpdateTemplates
    else if theme == "cost-variance-discussion" then CostVarianceTemplates
    else DefaultTemplates
  }

  /** The keyword arguments of `template.format(**theme_config, author=...)`. */
  function FormatValues(cfg: ThemeConfig, author: string): map<string, string> {
    map["theme" := cfg.theme, "date" := cfg.date, "author" := author]
    + (if cfg.storeId.Some? then map["store_id" := cfg.storeId.value] else map[])
  }

  /** A format failure as the exception it raises. */
  function FormatError(o: FormatOutcome): string
    requires !o.Formatted?
  {
    if o.KeyError? then "KeyError" else if o.IndexError? then "IndexError" else "ValueError"
  }

  /** A posted message; `postedAt` is the minute after midnight of the thread's date at
      which it was posted, whose `timestamp` text is `DateTimeText(date, postedAt)`. */
  datatype Message = Message(postedAt: nat, author: string, role: string, text: string,
                             reactions: seq<Reaction>, tags: seq<string>)

  /** `strftime('%Y-%m-%d %H:%M:%S')` of the moment `minutes` after midnight of `day`. */
  function DateTimeText(day: Day, minutes: nat): string {
    DateText(day + minutes / 1440) + ClockText(minutes)
  }

  /** The `' %H:%M:%S'` part of the moment `minutes` after midnight. */
  function ClockText(minutes: nat): string {
    " " + ZeroPad(minutes % 1440 / 60, 2) + ":" + ZeroPad(minutes % 60, 2) + ":00"
  }

  /** `s` is `date` followed by a space and a clock reading whose hour and minute, after
      `minutes / 1440` whole days, add up to `minutes`. */
  predicate ReadsBackAs(s: string, date: string, minutes: nat) {
    && |s| >= 9 && s[..|s| - 9] == date && s[|s| - 9] == ' '
    && AllDigits(s[|s| - 8..|s| - 6]) && AllDigits(s[|s| - 5..|s| - 3])
    && (minutes / 1440) * 1440 + ParseNat(s[|s| - 8..|s| - 6]) * 60 + ParseNat(s[|s| - 5..|s| - 3]) == minutes
  }

  /** The text reads back as the day the moment falls on, and the hour and minute of it. */
  lemma DateTimeTextReadsBack(day: Day, minutes: nat)
    ensures ReadsBackAs(DateTimeText(day, minutes), DateText(day + minutes / 1440), minutes)
  {
    ClockReadsBack(DateText(day + minutes / 1440), minutes, DateTimeText(day, minutes));
  }

  /** The clock part of a stamp after any date reads back as the hour and minute. */
  lemma ClockReadsBack(date: string, minutes: nat, s: string)
    requires s == date + ClockText(minutes)
    ensures ReadsBackAs(s, date, minutes)
  {
    var h, m := minutes % 1440 / 60, minutes % 60;
    var hh, mm := ZeroPad(h, 2), ZeroPad(m, 2);
    ZeroPad2Length(h);
    ZeroPad2Length(m);
    assert s == date + (" " + hh + ":" + mm + ":00");
    assert s[|s| - 8..|s| - 6] == hh;
    assert s[|s| - 5..|s| - 3] == mm;
    MinutesSplit(minutes);
  }

  lemma MinutesSplit(m: nat)
    ensures (m / 1440) * 1440 + (m % 1440 / 60) * 60 + m % 60 == m
  {
    var r := m % 1440;
    assert m == (m / 1440) * 1440 + r;
    assert r == (r / 60) * 60 + r % 60;
    assert m % 60 == r % 60 by {
      assert m == ((m / 1440) * 24) * 60 + r;
    }
  }

  /** Minutes between messages: `random.randint(15, 180)`. */
  predicate MinuteGapsInRange(gaps: seq<int>) {
    forall i :: 0 <= i < |gaps| ==> 15 <= gaps[i] <= 180
  }

  /** Minutes after midnight of the thread date at which message `i` is posted: 9 AM plus
      the gaps drawn after the earlier messages. */
  function PostMinute(gaps: seq<int>, i: nat): (m: nat)
    requires MinuteGapsInRange(gaps) && i <= |gaps|
    ensures m >= 540
    decreases i
  {
    if i == 0 then 540
    else
      assert gaps[..i][..i - 1] == gaps[..i - 1];
      PostMinute(gaps, i - 1) + gaps[i - 1]
  }

  /** Messages are posted from 09:00 on, each 15 to 180 minutes after the previous one. */
  lemma PostMinutesAdvance(gaps: seq<int>, i: nat)
    requires MinuteGapsInRange(gaps) && i < |gaps|
    ensures PostMinute(gaps, 0) == 540
    ensures 15 <= PostMinute(gaps, i + 1) - PostMinute(gaps, i) <= 180
  {
  }

  /** The first message is stamped 09:00:00 on the thread date. */
  lemma FirstPostStamp(day: Day)
    ensures DateTimeText(day, 540) == DateText(day) + " 09:00:00"
  {
    NineOClock();
    assert 540 / 1440 == 0 && 540 % 1440 / 60 == 9 && 540 % 60 == 0;
    assert ClockText(540) == " 09:00:00";
  }

  lemma NineOClock()
    ensures ZeroPad(9, 2) == "09" && ZeroPad(0, 2) == "00"
  {
    assert NatToString(9) == "9";
    assert Zeros(1) == "0";
    assert NatToString(0) == "0";
  }

  /** How many messages a thread gets. */
  /** How many templates `_get_message_templates` has for a theme. */
  function TemplateCount(theme: string): (n: nat)
    ensures 3 <= n <= 5
  {
    if theme == "supply-chain-delay" then 5
    else if theme == "site-visit-followup" then 4
    else if theme == "template-update" then 5
    else if theme == "cost-variance-discussion" then 5
    else 3
  }

  /** `min(message_count, len(templates))`. */
  function MessageTotal(theme: string, messageCount: nat): nat {
    Min(messageCount, TemplateCount(theme))
  }

  /** The draws one thread consumes. */
  datatype ThreadDraws = ThreadDraws(counter: nat, messageCount: nat, reactions: seq<ReactionDraws>, gaps: seq<int>)

  predicate DrawsFit(cfg: ThemeConfig, d: ThreadDraws) {
    var t := ThemeTemplateFor(cfg.theme);
    var n := MessageTotal(cfg.theme, d.messageCount);
    && 1 <= d.counter <= 999
    && t.minMessages <= d.messageCount <= t.maxMessages
    && |d.reactions| == n && |d.gaps| == n
    && MinuteGapsInRange(d.gaps)
    && forall i :: 0 <= i < n ==> ReactionDrawsFit(i, d.messageCount, d.reactions[i])
  }

  /** Message `i` of a thread: its author rotates through the participants (with none,
      `i % len(participants)` divides by zero) and its text is the template formatted with
      the theme configuration and the author. */
  function MessageAt(cfg: ThemeConfig, templates: seq<string>, participants: seq<TeamsParticipant>, d: ThreadDraws, i: nat): (r: Result<Message>)
    requires DrawsFit(cfg, d) && |templates| == TemplateCount(cfg.theme) && i < MessageTotal(cfg.theme, d.messageCount)
    ensures participants == [] ==> r == Err("ZeroDivisionError")
    ensures r.Ok? ==> r.value.author == participants[i % |participants|].name
    ensures r.Ok? ==> r.value.postedAt == PostMinute(d.gaps, i)
    ensures r.Ok? ==> r.value.tags == MessageTags(r.value.text, cfg)
    ensures r.Err? ==> r.error in {"ZeroDivisionError", "KeyError", "IndexError", "ValueError"}
  {
    if participants == [] then Err("ZeroDivisionError")
    else
      var author := participants[i % |participants|];
      var outcome := Format(templates[i], FormatValues(cfg, author.name));
      if !outcome.Formatted? then Err(FormatError(outcome))
      else
        var text := outcome.text;
        Ok(Message(PostMinute(d.gaps, i), author.name, author.role, text,
                   ReactionsOf(i, d.messageCount, d.reactions[i]), MessageTags(text, cfg)))
  }

  /** The outcome of each message the thread posts, in order. */
  function MessageResults(cfg: ThemeConfig, templates: seq<string>, participants: seq<TeamsParticipant>, d: ThreadDraws)
    : (rs: seq<Result<Message>>)
    requires DrawsFit(cfg, d) && |templates| == TemplateCount(cfg.theme)
    ensures |rs| == MessageTotal(cfg.theme, d.messageCount)
    ensures forall i :: 0 <= i < |rs| ==> rs[i] == MessageAt(cfg, templates, participants, d, i)
  {
    var n := MessageTotal(cfg.theme, d.messageCount);
    seq(n, i requires 0 <= i < n => MessageAt(cfg, templates, participants, d, i))
  }

  /** The messages of a thread, or the exception of the first message that raised. */
  function Messages(cfg: ThemeConfig, templates: seq<string>, participants: seq<TeamsParticipant>, d: ThreadDraws)
    : Result<seq<Message>>
    requires DrawsFit(cfg, d) && |templates| == TemplateCount(cfg.theme)
  {
    Collect(MessageResults(cfg, templates, participants, d))
  }

  /** A thread without participants fails on its first message; a thread that posts has
      every message in place, authors in rotation. */
  lemma MessagesShape(cfg: ThemeConfig, templates: seq<string>, participants: seq<TeamsParticipant>, d: ThreadDraws)
    requires DrawsFit(cfg, d) && |templates| == TemplateCount(cfg.theme)
    ensures participants == [] ==> Messages(cfg, templates, participants, d) == Err("ZeroDivisionError")
    ensures var r := Messages(cfg, templates, participants, d);
            r.Ok? ==> && |r.value| == MessageTotal(cfg.theme, d.messageCount)
                      && participants != []
                      && forall i :: 0 <= i < |r.value| ==>
                           && MessageAt(cfg, templates, participants, d, i) == Ok(r.value[i])
                           && r.value[i].author == participants[i % |participants|].name
  {
    var n := MessageTotal(cfg.theme, d.messageCount);
    var rs := MessageResults(cfg, templates, participants, d);
    if participants == [] {
      CollectFirstFailure(rs, 0);
    }
    var r := Collect(rs);
    if r.Ok? {
      CollectMeaning(rs);
    }
  }

  /** One pass of the `_generate_messages` loop: author, formatted text,
      reactions and tags of message `i`, posted at `currentTime`. */
  method ComposeMessage(cfg: ThemeConfig, templates: seq<string>, participants: seq<TeamsParticipant>, d: ThreadDraws, i: nat, currentTime: int)
    returns (r: Result<Message>)
    requires DrawsFit(cfg, d) && |templates| == TemplateCount(cfg.theme) && i < MessageTotal(cfg.theme, d.messageCount)
    requires currentTime == PostMinute(d.gaps, i)
    ensures r == MessageAt(cfg, templates, participants, d, i)
  {
    if |participants| == 0 {
      return Err("ZeroDivisionError");
    }
    var author := participants[i % |participants|];
    var outcome := Format(templates[i], FormatValues(cfg, author.name));
    if !outcome.Formatted? {
      return Err(FormatError(outcome));
    }
    var text := outcome.text;
    var reactions := GenerateReactions(i, d.messageCount, d.reactions[i]);
    var tags := ExtractTagsFromMessage(text, cfg);
    return Ok(Message(currentTime, author.name, author.role, text, reactions, tags));
  }

  /** `_generate_messages` over the theme's templates: messages appended while the clock
      advances from nine in the morning. */
  method GenerateMessages(cfg: ThemeConfig, templates: seq<string>, participants: seq<TeamsParticipant>, d: ThreadDraws)
    returns (r: Result<seq<Message>>)
    requires DrawsFit(cfg, d) && |templates| == TemplateCount(cfg.theme)
    ensures r == Messages(cfg, templates, participants, d)
  {
    ghost var results := MessageResults(cfg, templates, participants, d);
    var messages: seq<Message> := [];
    var currentTime := 540;
    for i := 0 to MessageTotal(cfg.theme, d.messageCount)
      invariant Collect(results[..i]) == Ok(messages)
      invariant currentTime == PostMinute(d.gaps, i)
    {
      var m := ComposeMessage(cfg, templates, participants, d, i, currentTime);
      MessageStep(cfg, templates, participants, d, i, messages);
      if m.Err? {
        return Err(m.error);
      }
      messages := messages + [m.value];
      currentTime := currentTime + d.gaps[i];
      assert currentTime == PostMinute(d.gaps, i + 1);
    }
    assert results[..|results|] == results;
    return Ok(messages);
  }

  /** After the first `i` messages were posted, message `i` is posted next or its
      exception is the thread's. */
  lemma MessageStep(cfg: ThemeConfig, templates: seq<string>, participants: seq<TeamsParticipant>, d: ThreadDraws,
                    i: nat, messages: seq<Message>)
    requires DrawsFit(cfg, d) && |templates| == TemplateCount(cfg.theme) && i < MessageTotal(cfg.theme, d.messageCount)
    requires Collect(MessageResults(cfg, templates, participants, d)[..i]) == Ok(messages)
    ensures var rs := MessageResults(cfg, templates, participants, d);
            var m := MessageAt(cfg, templates, participants, d, i);
            && (m.Ok? ==> Collect(rs[..i + 1]) == Ok(messages + [m.value]))
            && (m.Err? ==> Collect(rs) == Err(m.error))
  {
    var rs := MessageResults(cfg, templates, participants, d);
    CollectExtend(rs, i);
    if rs[i].Err? {
      CollectStaysFailed(rs, i + 1);
    }
  }

  // ------------------------------------------------------------------------
  // _generate_summary and _extract_action_items_from_messages
  // ------------------------------------------------------------------------

  /** `_generate_summary`: the theme's fixed summary, else a message count. */
  function Summary(messages: seq<Message>, theme: string): string {
    if theme == "supply-chain-delay" then
      "Primary HVAC vendor extended lead times from 6 to 10 weeks. Team "
        + "decided to switch to backup vendor despite 15% cost premium to avoid "
        + "schedule delays."
    else if theme == "site-visit-followup" then
      "Follow-up on site visit findings. Cost estimate updated with "
        + "electrical upgrade and landlord constraint documented."
    else if theme == "template-update" then
      "Base template v2.3 released with updated electrical panel requirements "
        + "(200A → 400A) to address load issues."
    else if theme == "cost-variance-discussion" then
      "Discussed cost variance on completed store. Identified backup vendor "
        + "with better pricing for potential preferred vendor status."
    else "Discussion with " + NatToString(|messages|) + " messages."
  }

  /** An action item of a thread; its `due_date` is always `None`. */
  datatype TeamsActionItem = TeamsActionItem(description: string, owner: string, status: string)

  /** Action-oriented language in a message. */
  predicate ActionPhrase(text: string) {
    var lower := Lower(text);
    Contains(lower, "i can") || Contains(lower, "i'll") || Contains(lower, "let me") || Contains(lower, "will send")
  }

  /** One open item per message with action-oriented language, in message order. */
  function ActionItemsOf(messages: seq<Message>): (items: seq<TeamsActionItem>)
    ensures |items| <= |messages|
    decreases |messages|
  {
    if messages == [] then []
    else
      var n := |messages| - 1;
      var m := messages[n];
      ActionItemsOf(messages[..n]) + (if ActionPhrase(m.text) then [TeamsActionItem(Take(m.text, 100), m.author, "open")] else [])
  }

  /** The item some message with action-oriented language gives: its first 100
      characters, its author, status open. */
  predicate ItemOfSomeMessage(item: TeamsActionItem, messages: seq<Message>) {
    exists i :: 0 <= i < |messages| && ActionPhrase(messages[i].text)
                && item == TeamsActionItem(Take(messages[i].text, 100), messages[i].author, "open")
  }

  /** Each item comes from a message with action-oriented language. */
  lemma {:induction false} ActionItemsFromMessages(messages: seq<Message>)
    ensures forall k :: 0 <= k < |ActionItemsOf(messages)| ==> ItemOfSomeMessage(ActionItemsOf(messages)[k], messages)
    decreases |messages|
  {
    if messages != [] {
      var n := |messages| - 1;
      var sub := messages[..n];
      ActionItemsFromMessages(sub);
      var prev := ActionItemsOf(sub);
      var items := ActionItemsOf(messages);
      forall k | 0 <= k < |items| ensures ItemOfSomeMessage(items[k], messages) {
        if k < |prev| {
          assert ItemOfSomeMessage(prev[k], sub);
          var i :| 0 <= i < |sub| && ActionPhrase(sub[i].text)
                   && prev[k] == TeamsActionItem(Take(sub[i].text, 100), sub[i].author, "open");
          assert sub[i] == messages[i];
          assert items[k] == prev[k];
        } else {
          assert items[k] == TeamsActionItem(Take(messages[n].text, 100), messages[n].author, "open");
        }
      }
    }
  }

  /** `_extract_action_items_from_messages`: items appended per message, the first three kept. */
  method ExtractActionItems(messages: seq<Message>) returns (items: seq<TeamsActionItem>)
    ensures items == Take(ActionItemsOf(messages), 3)
  {
    var all: seq<TeamsActionItem> := [];
    for k := 0 to |messages|
      invariant all == ActionItemsOf(messages[..k])
    {
      assert messages[..k + 1][..k] == messages[..k];
      var text := messages[k].text;
      if ActionPhrase(text) {
        all := all + [TeamsActionItem(Take(text, 100), messages[k].author, "open")];
      }
    }
    assert messages[..|messages|] == messages;
    return Take(all, 3);
  }

  /** At most three open items, each at most 100 characters of a message with action
      language and owned by that message's author. */
  lemma ActionItemsBounds(messages: seq<Message>)
    ensures var items := Take(ActionItemsOf(messages), 3);
            && |items| <= 3
            && forall k :: 0 <= k < |items| ==>
                 && |items[k].description| <= 100 && items[k].status == "open"
                 && ItemOfSomeMessage(items[k], messages)
  {
    var all := ActionItemsOf(messages);
    var items := Take(all, 3);
    ActionItemsFromMessages(messages);
    forall k | 0 <= k < |items|
      ensures |items[k].description| <= 100 && items[k].status == "open" && ItemOfSomeMessage(items[k], messages)
    {
      assert items[k] == all[k];
      assert ItemOfSomeMessage(all[k], messages);
    }
  }

  // ------------------------------------------------------------------------
  // _generate_references
  // ------------------------------------------------------------------------

  /** A match of `Store[- ]#?(\d+)` at the start of the text: the digits and the length
      of the whole match. */
  function StoreRefAt(text: string): (r: Option<(string, nat)>)
    ensures r.Some? ==> 0 < r.value.1 <= |text| && r.value.0 != [] && AllDigits(r.value.0)
  {
    if |text| > 5 && StartsWith(text, "Store") && (text[5] == '-' || text[5] == ' ') then
      var k := if |text| > 6 && text[6] == '#' then 7 else 6;
      var n := DigitRun(text[k..]);
      assert text[k..][..n] == text[k..k + n];
      if n > 0 then Some((text[k..k + n], k + n)) else None
    else None
  }

  /** `[f"Store-{s}" for s in re.findall(r'Store[- ]#?(\d+)', text)]`. */
  function StoreRefs(text: string): (r: seq<string>)
    ensures forall i :: 0 <= i < |r| ==> |r[i]| > 6 && r[i][..6] == "Store-" && AllDigits(r[i][6..])
    decreases |text|
  {
    if text == [] then []
    else
      match StoreRefAt(text)
      case Some((digits, len)) => ["Store-" + digits] + StoreRefs(text[len..])
      case None => StoreRefs(text[1..])
  }

  /** The pattern matches at the start of `Store`, a separator, an optional `#` and a
      maximal run of digits, and captures the digits. */
  lemma StoreRefAtMatch(sep: char, hash: bool, digits: string, rest: string)
    requires sep == '-' || sep == ' '
    requires digits != [] && AllDigits(digits)
    requires rest == [] || !IsDigit(rest[0])
    ensures var head := "Store" + [sep] + (if hash then "#" else "");
            StoreRefAt(head + digits + rest) == Some((digits, |head| + |digits|))
  {
    var head := "Store" + [sep] + (if hash then "#" else "");
    var tail := digits + rest;
    var text := head + digits + rest;
    AppendAssociates(head, digits, rest);
    assert text == head + tail;
    var k := |head|;
    assert text[..5] == head[..5] == "Store";
    assert text[5] == head[5] == sep;
    assert k == (if |text| > 6 && text[6] == '#' then 7 else 6) by {
      if !hash {
        assert text[6] == tail[0] == digits[0];
      }
    }
    assert text[k..] == tail;
    DigitRunOf(digits, rest);
    assert tail[..|digits|] == digits;
  }

  /** Every spelling the pattern accepts, `Store-189`, `Store 189`, `Store #189` or
      `Store-#189`, is recorded as `Store-189`. */
  lemma StoreRefNormalised(sep: char, hash: bool, digits: string, rest: string)
    requires sep == '-' || sep == ' '
    requires digits != [] && AllDigits(digits)
    requires rest == [] || !IsDigit(rest[0])
    ensures StoreRefs("Store" + [sep] + (if hash then "#" else "") + digits + rest) == ["Store-" + digits] + StoreRefs(rest)
  {
    var head := "Store" + [sep] + (if hash then "#" else "");
    var text := head + digits + rest;
    StoreRefAtMatch(sep, hash, digits, rest);
    assert text[|head| + |digits|..] == rest;
  }

  datatype StructuredRef = StructuredRef(source: string, file: string, field: string)

  datatype References = References(stores: seq<string>, vendors: seq<string>, meetings: seq<string>,
                                   structuredData: seq<StructuredRef>)

  /** `' '.join(m['text'] for m in messages)`. */
  function FullText(messages: seq<Message>): string {
    Join(seq(|messages|, i requires 0 <= i < |messages| => messages[i].text), " ")
  }

  /** `_generate_references`; `vendors` is `list(set(...))` of the vendor-pattern matches. */
  function GenerateReferences(messages: seq<Message>, cfg: ThemeConfig, vendors: seq<string>): (r: References)
    ensures r.stores == StoreRefs(FullText(messages)) && r.vendors == vendors
    ensures |r.meetings| == (if cfg.theme == "site-visit-followup" && HasStore(cfg) then 1 else 0)
    ensures |r.meetings| == 1 ==> r.meetings[0] == "site_visit_" + cfg.storeId.value + "_" + cfg.date + ".txt"
    ensures |r.structuredData| == (if HasStore(cfg) then 1 else 0)
    ensures |r.structuredData| == 1 ==>
              r.structuredData[0] == StructuredRef("03_Historical_Projects", "historical_projects.csv", cfg.storeId.value)
  {
    var meetings := if cfg.theme == "site-visit-followup" && HasStore(cfg)
                    then ["site_visit_" + cfg.storeId.value + "_" + cfg.date + ".txt"] else [];
    var structured := if HasStore(cfg)
                      then [StructuredRef("03_Historical_Projects", "historical_projects.csv", cfg.storeId.value)] else [];
    References(StoreRefs(FullText(messages)), vendors, meetings, structured)
  }

  // ------------------------------------------------------------------------
  // _generate_thread
  // ------------------------------------------------------------------------

  datatype Thread = Thread(threadId: string, date: string, participants: seq<TeamsParticipant>, messages: seq<Message>,
                           summary: string, actionItems: seq<TeamsActionItem>, references: References)

  /** `_generate_thread` as a specification: id, participants, messages, then the metadata;
      the first step that raises decides the error. */
  function ThreadOf(channel: string, cfg: ThemeConfig, templates: seq<string>, pool: seq<string>, catalogue: seq<Persona>,
                    vendors: seq<string>, d: ThreadDraws): Result<Thread>
    requires DrawsFit(cfg, d) && |templates| == TemplateCount(cfg.theme)
  {
    match ThreadId(channel, cfg.date, d.counter)
    case Err(e) => Err(e)
    case Ok(id) =>
      match ParticipantsFor(ThemeTemplateFor(cfg.theme).requiredRoles, pool, catalogue)
      case Err(e) => Err(e)
      case Ok(participants) =>
        match Messages(cfg, templates, participants, d)
        case Err(e) => Err(e)
        case Ok(messages) =>
          Ok(Thread(id, cfg.date, participants, messages, Summary(messages, cfg.theme),
                    Take(ActionItemsOf(messages), 3), GenerateReferences(messages, cfg, vendors)))
  }

  /** `_generate_thread`. */
  method GenerateThread(channel: string, cfg: ThemeConfig, templates: seq<string>, pool: seq<string>, catalogue: seq<Persona>,
                        vendors: seq<string>, d: ThreadDraws) returns (r: Result<Thread>)
    requires DrawsFit(cfg, d) && |templates| == TemplateCount(cfg.theme)
    ensures r == ThreadOf(channel, cfg, templates, pool, catalogue, vendors, d)
  {
    var id := ThreadId(channel, cfg.date, d.counter);
    if id.Err? {
      return Err(id.error);
    }
    var participants := SelectParticipants(ThemeTemplateFor(cfg.theme).requiredRoles, pool, catalogue);
    if participants.Err? {
      return Err(participants.error);
    }
    var messages := GenerateMessages(cfg, templates, participants.value, d);
    if messages.Err? {
      return Err(messages.error);
    }
    var items := ExtractActionItems(messages.value);
    var refs := GenerateReferences(messages.value, cfg, vendors);
    return Ok(Thread(id.value, cfg.date, participants.value, messages.value, Summary(messages.value, cfg.theme), items, refs));
  }

  /** A generated thread has the theme's message count capped by its templates, authors in
      rotation, and at most four participants when drawn from a pool. */
  lemma ThreadShape(channel: string, cfg: ThemeConfig, templates: seq<string>, pool: seq<string>, catalogue: seq<Persona>,
                    vendors: seq<string>, d: ThreadDraws)
    requires DrawsFit(cfg, d) && |templates| == TemplateCount(cfg.theme)
    ensures var r := ThreadOf(channel, cfg, templates, pool, catalogue, vendors, d);
            r.Ok? ==>
              && |r.value.messages| == MessageTotal(cfg.theme, d.messageCount)
              && (pool != [] ==> |r.value.participants| <= 4)
              && |r.value.actionItems| <= 3
              && forall i :: 0 <= i < |r.value.messages| ==>
                   r.value.messages[i].author == r.value.participants[i % |r.value.participants|].name
  {
    var r := ThreadOf(channel, cfg, templates, pool, catalogue, vendors, d);
    if r.Ok? {
      var ps := ParticipantsFor(ThemeTemplateFor(cfg.theme).requiredRoles, pool, catalogue);
      assert ps.Ok?;
      var ms := Messages(cfg, templates, ps.value, d);
      assert ms.Ok? && r.value.participants == ps.value && r.value.messages == ms.value;
      ParticipantsBounds(ThemeTemplateFor(cfg.theme).requiredRoles, pool, catalogue);
      MessagesShape(cfg, templates, ps.value, d);
    }
  }

  // ------------------------------------------------------------------------
  // The conversation index
  // ------------------------------------------------------------------------

  /** One row `_update_conversation_index` writes; `key_topics`, a set joined in its
      iteration order, is not kept. */
  datatype IndexEntry = IndexEntry(storeId: string, conversationType: string, filename: string, date: string,
                                   participants: string, costImpact: int, timelineImpact: int)

  function ParticipantNames(ps: seq<TeamsParticipant>): string {
    Join(seq(|ps|, i requires 0 <= i < |ps| => ps[i].name), "|")
  }

  /** The rows of one thread: one per store reference, in order. */
  function ThreadEntries(channel: string, t: Thread): (r: seq<IndexEntry>)
    ensures |r| == |t.references.stores|
    ensures forall i :: 0 <= i < |r| ==>
              r[i].storeId == t.references.stores[i] && r[i].filename == channel + ".json#" + t.threadId
  {
    seq(|t.references.stores|, i requires 0 <= i < |t.references.stores| =>
      IndexEntry(t.references.stores[i], "teams_thread", channel + ".json#" + t.threadId, t.date,
                 ParticipantNames(t.participants), 0, 0))
  }

  /** The rows for all threads of the channel, thread by thread. */
  function IndexEntries(channel: string, threads: seq<Thread>): seq<IndexEntry>
    decreases |threads|
  {
    if threads == [] then [] else ThreadEntries(channel, threads[0]) + IndexEntries(channel, threads[1..])
  }

  /** Indexing a channel indexes its earlier threads again, so the rows of a channel that
      gained threads are the earlier rows followed by the new threads' rows. */
  lemma {:induction false} IndexEntriesAppend(channel: string, earlier: seq<Thread>, added: seq<Thread>)
    ensures IndexEntries(channel, earlier + added) == IndexEntries(channel, earlier) + IndexEntries(channel, added)
    decreases |earlier|
  {
    if earlier == [] {
      assert earlier + added == added;
    } else {
      assert (earlier + added)[1..] == earlier[1..] + added;
      IndexEntriesAppend(channel, earlier[1..], added);
    }
  }

  // ------------------------------------------------------------------------
  // generate_conversations
  // ------------------------------------------------------------------------

  /** The outcome of the thread for each theme, in order. */
  function ThreadResults(channel: string, themes: seq<ThemeConfig>, templatesOf: string -> seq<string>, pool: seq<string>, catalogue: seq<Persona>,
                         vendors: seq<seq<string>>, draws: seq<ThreadDraws>): (rs: seq<Result<Thread>>)
    requires |vendors| == |themes| && |draws| == |themes|
    requires forall i :: 0 <= i < |themes| ==> DrawsFit(themes[i], draws[i])
    requires forall t :: |templatesOf(t)| == TemplateCount(t)
    ensures |rs| == |themes|
    decreases |themes|
  {
    if themes == [] then []
    else [ThreadOf(channel, themes[0], templatesOf(themes[0].theme), pool, catalogue, vendors[0], draws[0])]
         + ThreadResults(channel, themes[1..], templatesOf, pool, catalogue, vendors[1..], draws[1..])
  }

  /** The outcome for theme `k` is the thread generated from that theme's configuration,
      vendor matches and draws. */
  lemma {:induction false} ThreadResultsAt(channel: string, themes: seq<ThemeConfig>, templatesOf: string -> seq<string>, pool: seq<string>, catalogue: seq<Persona>,
                                           vendors: seq<seq<string>>, draws: seq<ThreadDraws>, k: nat)
    requires |vendors| == |themes| && |draws| == |themes| && k < |themes|
    requires forall i :: 0 <= i < |themes| ==> DrawsFit(themes[i], draws[i])
    requires forall t :: |templatesOf(t)| == TemplateCount(t)
    ensures ThreadResults(channel, themes, templatesOf, pool, catalogue, vendors, draws)[k]
            == ThreadOf(channel, themes[k], templatesOf(themes[k].theme), pool, catalogue, vendors[k], draws[k])
    decreases k
  {
    if k > 0 {
      forall i | 0 <= i < |themes| - 1
        ensures DrawsFit(themes[1..][i], draws[1..][i])
      {
        assert themes[1..][i] == themes[i + 1] && draws[1..][i] == draws[i + 1];
      }
      ThreadResultsAt(channel, themes[1..], templatesOf, pool, catalogue, vendors[1..], draws[1..], k - 1);
      assert themes[1..][k - 1] == themes[k] && vendors[1..][k - 1] == vendors[k] && draws[1..][k - 1] == draws[k];
    }
  }

  /** Thread `k` of a run, as `generate_conversations` produces it. */
  method GenerateThreadAt(channel: string, themes: seq<ThemeConfig>, templatesOf: string -> seq<string>, pool: seq<string>, catalogue: seq<Persona>,
                          vendors: seq<seq<string>>, draws: seq<ThreadDraws>, k: nat) returns (r: Result<Thread>)
    requires |vendors| == |themes| && |draws| == |themes| && k < |themes|
    requires forall i :: 0 <= i < |themes| ==> DrawsFit(themes[i], draws[i])
    requires forall t :: |templatesOf(t)| == TemplateCount(t)
    ensures r == ThreadResults(channel, themes, templatesOf, pool, catalogue, vendors, draws)[k]
  {
    ThreadResultsAt(channel, themes, templatesOf, pool, catalogue, vendors, draws, k);
    r := GenerateThread(channel, themes[k], templatesOf(themes[k].theme), pool, catalogue, vendors[k], draws[k]);
  }

  /** A channel file: its name and its threads, which only ever grow. */
  /** A channel as its file holds it: loaded at the start of a run (or new and empty)
      and written back only once every thread of the run has been generated. */
  class Channel {
    var name: string
    var threads: seq<Thread>

    /** A channel loaded with the threads it already has, or new with none. */
    constructor (name: string, existing: seq<Thread>)
      ensures this.name == name && threads == existing
    {
      this.name := name;
      threads := existing;
    }

    /** `generate_conversations`: one thread per theme appended in order to the loaded
        threads, the channel saved, then the index rows of every thread of the channel.
        The save comes after the loop, so a failing thread leaves the file as it was. */
    method GenerateConversations(themes: seq<ThemeConfig>, templatesOf: string -> seq<string>, pool: seq<string>, catalogue: seq<Persona>,
                                 vendors: seq<seq<string>>, draws: seq<ThreadDraws>) returns (r: Result<seq<IndexEntry>>)
      requires |vendors| == |themes| && |draws| == |themes|
      requires forall i :: 0 <= i < |themes| ==> DrawsFit(themes[i], draws[i])
      requires forall t :: |templatesOf(t)| == TemplateCount(t)
      modifies this
      ensures name == old(name)
      ensures r.Err? ==> threads == old(threads)
      ensures r.Ok? ==> |threads| == |old(threads)| + |themes|
      ensures var run := Collect(ThreadResults(name, themes, templatesOf, pool, catalogue, vendors, draws));
              && (r.Ok? <==> run.Ok?)
              && (r.Err? ==> r.error == run.error)
              && (r.Ok? ==> threads == old(threads) + run.value && r.value == IndexEntries(name, threads))
    {
      ghost var results := ThreadResults(name, themes, templatesOf, pool, catalogue, vendors, draws);
      var channelThreads := threads;
      for k := 0 to |themes|
        invariant name == old(name) && threads == old(threads)
        invariant Collect(results[..k]).Ok?
        invariant channelThreads == old(threads) + Collect(results[..k]).value
      {
        var thread := GenerateThreadAt(name, themes, templatesOf, pool, catalogue, vendors, draws, k);
        if thread.Err? {
          CollectFailsAt(results, k);
          return Err(thread.error);
        }
        CollectExtend(results, k);
        channelThreads := channelThreads + [thread.value];
      }
      assert results[..|themes|] == results;
      threads := channelThreads;
      return Ok(IndexEntries(name, threads));
    }
  }

  /** The index written after generating lists the channel's earlier rows again, then one
      row per store reference of each new thread. */
  lemma IndexAfterGeneration(channel: string, earlier: seq<Thread>, added: seq<Thread>)
    ensures |IndexEntries(channel, earlier + added)| == |IndexEntries(channel, earlier)| + |IndexEntries(channel, added)|
    ensures IndexEntries(channel, earlier + added)[..|IndexEntries(channel, earlier)|] == IndexEntries(channel, earlier)
  {
    IndexEntriesAppend(channel, earlier, added);
  }
}
