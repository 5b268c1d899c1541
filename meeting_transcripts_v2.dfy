/** The scenario-driven meeting transcript generator (version 2): the context a meeting
    type's dialogue templates are filled from, one turn per scenario with the speaker
    taken from a fixed role-to-persona map, the running `[HH:MM:SS]` clock, the
    participant list in order of first appearance, the duration read back from the last
    stamp, and the tags, action items, references, layout and file name of the
    transcript. The scenarios, the persona catalogue, the meeting date and "today" are
    inputs; every `random.randint(30, 180)` gap is a parameter. */
module MeetingTranscriptsV2 {
  import opened Common
  import opened Personas
  import opened Timestamps
  import opened Calendar
  import opened TemplateFormat
  import opened TranscriptText
  import opened StringOrder
  import MeetingTranscripts

  // ------------------------------------------------------------------------
  // Meeting types
  // ------------------------------------------------------------------------

  /** The meeting types the generator handles by name; any other name is kept as given. */
  datatype MeetingType =
    | SiteVisitDebrief | VendorNegotiation | LessonsLearned | DesignReview | WeeklyDevSync
    | OtherType(name: string)

  /** The `meeting_type` string compared against the names the generator knows. */
  function TypeOf(meetingType: string): (t: MeetingType)
    ensures t.OtherType? ==> t.name == meetingType
  {
    if meetingType == "site_visit_debrief" then SiteVisitDebrief
    else if meetingType == "vendor_negotiation" then VendorNegotiation
    else if meetingType == "lessons_learned" then LessonsLearned
    else if meetingType == "design_review" then DesignReview
    else if meetingType == "weekly_dev_sync" then WeeklyDevSync
    else OtherType(meetingType)
  }

  function TypeName(t: MeetingType): string {
    match t
    case SiteVisitDebrief => "site_visit_debrief"
    case VendorNegotiation => "vendor_negotiation"
    case LessonsLearned => "lessons_learned"
    case DesignReview => "design_review"
    case WeeklyDevSync => "weekly_dev_sync"
    case OtherType(name) => name
  }

  /** Reading a type name loses nothing: the name comes back. */
  lemma TypeNameRoundTrip(meetingType: string)
    ensures TypeName(TypeOf(meetingType)) == meetingType
  {
  }

  // ------------------------------------------------------------------------
  // _prepare_context
  // ------------------------------------------------------------------------

  /** A context value: an integer, a string, or a `None` taken over from the
      configuration. The one float of any context, the regional modifier 1.08, is
      carried as its text. */
  datatype Value = IntV(i: int) | StrV(s: string) | NoneV

  type Context = map<string, Value>

  /** `str(v)`, which is also what `format` writes for a plain `{key}` field. */
  function RenderValue(v: Value): string {
    match v
    case IntV(i) => IntToString(i)
    case StrV(s) => s
    case NoneV => "None"
  }

  /** The values `template_text.format(**context)` substitutes. */
  function FormatValues(context: Context): map<string, string> {
    map k | k in context :: RenderValue(context[k])
  }

  /** `config.get(key, default)` as a context value. */
  function ConfigOr(v: ConfigValue, default: string): Value {
    match v
    case Absent => StrV(default)
    case NoneValue => NoneV
    case Str(s) => StrV(s)
  }

  /** The configuration keys the generator reads; `date` is the `%Y-%m-%d` meeting date. */
  datatype MeetingConfig = MeetingConfig(storeId: ConfigValue, topic: ConfigValue, templateVersion: ConfigValue, date: Day)

  /** `int(store_id.split("-")[1])`: the number after the first dash. */
  function StoreNumber(storeId: Value): (r: Result<int>)
    ensures !storeId.StrV? ==> r == Err("AttributeError")
    ensures r.Ok? ==> r.value >= 0
  {
    match storeId
    case StrV(s) =>
      var fields := Split(s, '-');
      if |fields| < 2 then Err("IndexError")
      else
        var n := ReadField(fields[1]);
        if n.Ok? then Ok(n.value) else Err(n.error)
    case _ => Err("AttributeError")
  }

  // The sentences the fixed contexts carry.
  const SupplyChainReason: string := "Increased demand and shipping delays from overseas suppliers"
  const PaymentTerms: string := "50% deposit, 50% on delivery"
  const TimelineStatus: string := "finished 2 days ahead of schedule"
  const LearningFinancial: string := "this saved us $3,000 and shows backup vendors can offer better value"
  const LearningOperational: string := "we should always get quotes from at least two contractors"
  const TechnicalBenefit: string := "sufficient capacity for future electrical loads and equipment upgrades"
  const VarianceReason: string := "favorable vendor pricing on recent contracts"
  const BlockerDescription: string := "Waiting on permit approval for Store-215 - should be resolved by end of week"

  function SiteVisitContext(storeId: Value, number: int): (ctx: Context)
    ensures "store_id" in ctx && ctx["store_id"] == storeId
    ensures "historical_store" in ctx && ctx["historical_store"] == StrV("Store-" + IntToString(number - 12))
  {
    map["cost" := IntV(35000), "historical_cost" := IntV(32000), "market" := StrV("Cincinnati"),
        "modifier" := StrV("1.08"), "modifier_pct" := IntV(8), "modifier_reason" := StrV("union contracts"),
        "labor" := IntV(15000), "materials" := IntV(18000), "permits" := IntV(2000),
        "store_id" := storeId,
        "historical_store" := StrV("Store-" + IntToString(number - 12))]
  }

  function VendorContext(): Context {
    map["current_lead_time" := IntV(10), "old_lead_time" := IntV(6),
        "supply_chain_reason" := StrV(SupplyChainReason),
        "duration" := StrV("2-3 months"), "unit_cost" := IntV(16500), "old_unit_cost" := IntV(15000),
        "price_increase_pct" := IntV(10), "discount_pct" := IntV(7), "higher_discount_pct" := IntV(12),
        "discounted_cost" := IntV(15345), "payment_terms" := StrV(PaymentTerms)]
  }

  function LessonsContext(storeId: Value): (ctx: Context)
    ensures "store_id" in ctx && ctx["store_id"] == storeId
  {
    map["electrical_estimated" := IntV(35000), "electrical_actual" := IntV(32000),
        "variance" := IntV(-3000), "variance_pct" := IntV(9), "direction" := StrV("under"),
        "backup_vendor" := StrV("TempMaster"), "days_since_completion" := IntV(45),
        "timeline_status" := StrV(TimelineStatus),
        "learning_financial" := StrV(LearningFinancial),
        "learning_operational" := StrV(LearningOperational),
        "store_id" := storeId]
  }

  /** The design-review context; its two dates are 30 and 7 days after `today`. */
  function DesignContext(templateVersion: Value, today: Day): Context {
    map["old_spec" := StrV("200A panels"), "new_spec" := StrV("400A panels"),
        "problem_count" := IntV(3), "time_period" := StrV("last quarter"),
        "cost_increase" := IntV(5000), "cost_increase_pct" := IntV(15),
        "effective_date" := StrV(DateText(today + 30)),
        "technical_benefit" := StrV(TechnicalBenefit),
        "communication_date" := StrV(DateText(today + 7)),
        "template_version" := templateVersion]
  }

  function WeeklyContext(): Context {
    map["active_project_count" := IntV(12), "lead_time" := IntV(10), "affected_store_count" := IntV(3),
        "cost_premium_pct" := IntV(15), "critical_store" := StrV("Store-217"),
        "budget_variance_pct" := IntV(3), "budget_direction" := StrV("under"),
        "variance_reason" := StrV(VarianceReason),
        "blocker_description" := StrV(BlockerDescription),
        "upcoming_store_count" := IntV(4), "site_visit_count" := IntV(2)]
  }

  /** `_prepare_context`: a fixed context per meeting type, `{}` for any other type. Only
      the site-visit debrief can raise, while reading its store number. */
  function PrepareContext(meetingType: MeetingType, config: MeetingConfig, today: Day): Result<Context> {
    match meetingType
    case SiteVisitDebrief =>
      var storeId := ConfigOr(config.storeId, "Store-201");
      var n := StoreNumber(storeId);
      if n.Ok? then Ok(SiteVisitContext(storeId, n.value)) else Err(n.error)
    case VendorNegotiation => Ok(VendorContext())
    case LessonsLearned => Ok(LessonsContext(ConfigOr(config.storeId, "Store-189")))
    case DesignReview => Ok(DesignContext(ConfigOr(config.templateVersion, "v2.3"), today))
    case WeeklyDevSync => Ok(WeeklyContext())
    case OtherType(_) => Ok(map[])
  }

  /** Only a site-visit debrief can raise, and it does when its store id is `None`. */
  lemma PrepareContextRaises(meetingType: MeetingType, config: MeetingConfig, today: Day)
    ensures PrepareContext(meetingType, config, today).Err? ==> meetingType == SiteVisitDebrief
    ensures meetingType == SiteVisitDebrief && config.storeId.NoneValue?
            ==> PrepareContext(meetingType, config, today) == Err("AttributeError")
  {
  }

  /** The store id `Store-n` of a site-visit debrief gives the reference store
      `Store-(n-12)`, twelve numbers earlier. */
  lemma HistoricalStoreOf(config: MeetingConfig, today: Day, n: nat)
    requires config.storeId == Str("Store-" + NatToString(n))
    ensures var r := PrepareContext(SiteVisitDebrief, config, today);
            && r.Ok?
            && r.value["store_id"] == StrV("Store-" + NatToString(n))
            && r.value["historical_store"] == StrV("Store-" + IntToString(n - 12))
  {
    StoreNumberOf(n);
  }

  lemma StoreNumberOf(n: nat)
    ensures StoreNumber(StrV("Store-" + NatToString(n))) == Ok(n)
  {
    var digits := NatToString(n);
    assert "Store-" + digits == "Store" + ['-'] + digits;
    SplitAt("Store", '-', digits);
    assert '-' !in digits by { assert AllDigits(digits); }
    SplitWithout(digits, '-');
    ParseNatToString(n);
  }

  /** Without a configured store the debrief is about Store-201, whose reference store
      is Store-189. */
  lemma DefaultSiteVisitStores(config: MeetingConfig, today: Day)
    requires config.storeId.Absent?
    ensures var r := PrepareContext(SiteVisitDebrief, config, today);
            && r.Ok?
            && r.value["store_id"] == StrV("Store-201")
            && r.value["historical_store"] == StrV("Store-189")
  {
    DefaultStoreNumbers();
    HistoricalStoreOf(config.(storeId := Str("Store-201")), today, 201);
  }

  /** A lessons-learned meeting is about the configured store, by default Store-189, the
      reference store of the default site-visit debrief. */
  lemma LessonsStore(config: MeetingConfig, today: Day)
    ensures var r := PrepareContext(LessonsLearned, config, today);
            && r.Ok? && "store_id" in r.value
            && r.value["store_id"] == ConfigOr(config.storeId, "Store-189")
  {
  }

  lemma DefaultStoreNumbers()
    ensures "Store-" + NatToString(201) == "Store-201"
    ensures "Store-" + IntToString(201 - 12) == "Store-189"
  {
    assert NatToString(201) == "201";
    assert NatToString(189) == "189";
  }

  /** A store id without a dash has no second field: `IndexError`. */
  lemma StoreWithoutDash(config: MeetingConfig, today: Day)
    requires config.storeId.Str? && '-' !in config.storeId.s
    ensures PrepareContext(SiteVisitDebrief, config, today) == Err("IndexError")
  {
    SplitWithout(config.storeId.s, '-');
  }

  // ------------------------------------------------------------------------
  // _map_roles_to_personas
  // ------------------------------------------------------------------------

  /** The persona named for each scenario role. */
  const RoleMap: map<string, string> :=
    map["Project Manager" := "Sarah Chen", "General Contractor" := "Tom Wilson",
        "Procurement Manager" := "Jennifer Liu", "Store Manager" := "Mike Rodriguez",
        "VP Store Development" := "David Park", "Finance Analyst" := "Lisa Thompson",
        "Design Lead" := "Carlos Martinez", "Architect" := "Angela Wu"]

  /** One scenario of a template: who speaks and the text to fill in. */
  datatype Scenario = Scenario(speakerRole: string, text: string)

  function ScenarioRoles(scenarios: seq<Scenario>): set<string> {
    set i | 0 <= i < |scenarios| :: scenarios[i].speakerRole
  }

  /** The catalogue as a lookup by name: each name with the first persona bearing it. */
  function Directory(catalogue: seq<Persona>): (d: map<string, Persona>)
    ensures forall name :: name in d <==> GetPersona(name, catalogue).Ok?
    ensures forall name :: name in d ==> d[name] == GetPersona(name, catalogue).value
  {
    map name | name in (set i | 0 <= i < |catalogue| :: catalogue[i].name) :: GetPersona(name, catalogue).value
  }

  /** Each mapped role among `roles` with the persona the directory has under the mapped
      name; a role whose persona is missing is left out. */
  function RolePersonas(roles: set<string>, roleMap: map<string, string>, directory: map<string, Persona>)
    : (r: map<string, Persona>)
    ensures forall role :: role in r <==> role in roles && role in roleMap && roleMap[role] in directory
    ensures forall role :: role in r ==> r[role] == directory[roleMap[role]]
  {
    map role | role in roles && role in roleMap && roleMap[role] in directory :: directory[roleMap[role]]
  }

  /** The inner search of `_map_roles_to_personas`: the first persona with the name. */
  method FindPersona(name: string, catalogue: seq<Persona>) returns (found: Option<Persona>)
    ensures found.Some? <==> GetPersona(name, catalogue).Ok?
    ensures found.Some? ==> found.value == GetPersona(name, catalogue).value
  {
    for j := 0 to |catalogue|
      invariant forall i :: 0 <= i < j ==> catalogue[i].name != name
    {
      if catalogue[j].name == name {
        var p := GetPersona(name, catalogue);
        var i :| 0 <= i < |catalogue| && catalogue[i] == p.value
                 && (forall k :: 0 <= k < i ==> catalogue[k].name != name);
        assert i == j;
        return Some(catalogue[j]);
      }
    }
    return None;
  }

  /** `_map_roles_to_personas`: one entry per mapped role of the scenarios. */
  method MapRolesToPersonas(scenarios: seq<Scenario>, catalogue: seq<Persona>) returns (result: map<string, Persona>)
    ensures result == RolePersonas(ScenarioRoles(scenarios), RoleMap, Directory(catalogue))
  {
    var roleMap := RoleMap;
    ghost var directory := Directory(catalogue);
    result := map[];
    for k := 0 to |scenarios|
      invariant result == RolePersonas(ScenarioRoles(scenarios[..k]), roleMap, directory)
    {
      var role := scenarios[k].speakerRole;
      RolesGrow(scenarios, k);
      RolePersonasAdd(ScenarioRoles(scenarios[..k]), role, roleMap, directory);
      if role in roleMap {
        var found := FindPersona(roleMap[role], catalogue);
        if found.Some? {
          result := result[role := found.value];
        }
      }
    }
    assert scenarios[..|scenarios|] == scenarios;
  }

  /** Adding a role adds its persona when it has one, and changes nothing otherwise. */
  lemma RolePersonasAdd(roles: set<string>, role: string, roleMap: map<string, string>, directory: map<string, Persona>)
    ensures var before, after := RolePersonas(roles, roleMap, directory), RolePersonas(roles + {role}, roleMap, directory);
            if role in roleMap && roleMap[role] in directory
            then after == before[role := directory[roleMap[role]]]
            else after == before
  {
    var before, after := RolePersonas(roles, roleMap, directory), RolePersonas(roles + {role}, roleMap, directory);
    if role in roleMap && roleMap[role] in directory {
      var expected := before[role := directory[roleMap[role]]];
      assert forall k :: k in after <==> k in expected;
      assert forall k :: k in after ==> after[k] == expected[k];
      assert after == expected;
    } else {
      assert forall k :: k in after <==> k in before;
      assert after == before;
    }
  }

  lemma RolesGrow(scenarios: seq<Scenario>, k: nat)
    requires k < |scenarios|
    ensures ScenarioRoles(scenarios[..k + 1]) == ScenarioRoles(scenarios[..k]) + {scenarios[k].speakerRole}
  {
    var a, b := scenarios[..k + 1], scenarios[..k];
    assert a[k] == scenarios[k];
    forall role | role in ScenarioRoles(a) ensures role in ScenarioRoles(b) + {scenarios[k].speakerRole} {
      var i :| 0 <= i < |a| && a[i].speakerRole == role;
      if i < k {
        assert b[i] == a[i];
      }
    }
    forall role | role in ScenarioRoles(b) ensures role in ScenarioRoles(a) {
      var i :| 0 <= i < |b| && b[i].speakerRole == role;
      assert a[i] == b[i];
    }
  }

  // ------------------------------------------------------------------------
  // _generate_dialogue_from_scenarios
  // ------------------------------------------------------------------------

  /** A dialogue entry: its stamp, the speaker's name and role, and the text. */
  datatype Entry = Entry(timestamp: string, speaker: string, role: string, text: string)

  /** The text of a turn: the template filled from the context, or the template itself
      when it names a key the context lacks; any other formatting error propagates. */
  function ScenarioText(template: string, values: map<string, string>): (r: Result<string>)
    ensures r.Ok? <==> Format(template, values).Formatted? || Format(template, values).KeyError?
  {
    match Format(template, values)
    case Formatted(text) => Ok(text)
    case KeyError(_) => Ok(template)
    case IndexError => Err("IndexError")
    case ValueError => Err("ValueError")
  }

  /** A template naming one missing key is kept as it is. */
  lemma MissingKeyKeepsTemplate(pre: string, key: string, post: string, values: map<string, string>)
    requires NoBraces(pre) && FieldName(key) && key !in values
    ensures ScenarioText(pre + "{" + key + "}" + post, values) == Ok(pre + "{" + key + "}" + post)
  {
    assert pre + "{" + key + "}" + post == pre + ("{" + key + "}" + post);
    FormatPrefix(pre, "{" + key + "}" + post, values);
    FormatField(key, post, values);
  }

  /** A template naming one present key has the key's value put in its place. */
  lemma PresentKeyFilled(pre: string, key: string, post: string, values: map<string, string>)
    requires NoBraces(pre) && FieldName(key) && key in values && NoBraces(post)
    ensures ScenarioText(pre + "{" + key + "}" + post, values) == Ok(pre + values[key] + post)
  {
    var field := "{" + key + "}" + post;
    assert pre + "{" + key + "}" + post == pre + field;
    FormatField(key, post, values);
    FormatPlain(post, values);
    assert Format(field, values) == Formatted(values[key] + post);
    FormatPrefix(pre, field, values);
    assert pre + (values[key] + post) == pre + values[key] + post;
  }

  /** `role_to_persona.get(role, {'name': 'Unknown', 'role': role})`: the speaker's name
      and role. */
  function SpeakerOf(role: string, personas: map<string, Persona>): (string, string) {
    if role in personas then (personas[role].name, personas[role].role) else ("Unknown", role)
  }

  /** Turn `i`: its text, its speaker and the clock at its start. */
  function EntryAt(scenarios: seq<Scenario>, values: map<string, string>, personas: map<string, Persona>,
                   gaps: seq<int>, i: nat): Result<Entry>
    requires GapsInRange(gaps) && |gaps| == |scenarios| && i < |scenarios|
  {
    var text := ScenarioText(scenarios[i].text, values);
    if text.Err? then Err(text.error)
    else
      var speaker := SpeakerOf(scenarios[i].speakerRole, personas);
      Ok(Entry(TurnStamp(gaps, i), speaker.0, speaker.1, text.value))
  }

  function EntryResults(scenarios: seq<Scenario>, values: map<string, string>, personas: map<string, Persona>,
                        gaps: seq<int>): (rs: seq<Result<Entry>>)
    requires GapsInRange(gaps) && |gaps| == |scenarios|
    ensures |rs| == |scenarios| && forall i :: 0 <= i < |rs| ==> rs[i] == EntryAt(scenarios, values, personas, gaps, i)
  {
    seq(|scenarios|, i requires 0 <= i < |scenarios| => EntryAt(scenarios, values, personas, gaps, i))
  }

  /** The dialogue of the scenarios, or the first formatting error. */
  function ScenarioDialogue(scenarios: seq<Scenario>, context: Context, catalogue: seq<Persona>, gaps: seq<int>)
    : Result<seq<Entry>>
    requires GapsInRange(gaps) && |gaps| == |scenarios|
  {
    Collect(EntryResults(scenarios, FormatValues(context), RolePersonas(ScenarioRoles(scenarios), RoleMap, Directory(catalogue)), gaps))
  }

  /** `_generate_dialogue_from_scenarios`: map the roles, then run the turns. */
  method GenerateDialogueFromScenarios(scenarios: seq<Scenario>, context: Context, catalogue: seq<Persona>, gaps: seq<int>)
    returns (r: Result<seq<Entry>>)
    requires GapsInRange(gaps) && |gaps| == |scenarios|
    ensures r == ScenarioDialogue(scenarios, context, catalogue, gaps)
  {
    var rolePersonas := MapRolesToPersonas(scenarios, catalogue);
    r := RunTurns(scenarios, FormatValues(context), rolePersonas, gaps);
  }

  /** The loop of `_generate_dialogue_from_scenarios`: one entry per scenario, the clock
      advanced by each turn's gap, stopping at the first formatting error. */
  method RunTurns(scenarios: seq<Scenario>, values: map<string, string>, rolePersonas: map<string, Persona>,
                  gaps: seq<int>)
    returns (r: Result<seq<Entry>>)
    requires GapsInRange(gaps) && |gaps| == |scenarios|
    ensures r == Collect(EntryResults(scenarios, values, rolePersonas, gaps))
  {
    var dialogue: seq<Entry> := [];
    var currentTime := 0;
    ghost var rs := EntryResults(scenarios, values, rolePersonas, gaps);
    for i := 0 to |scenarios|
      invariant Collect(rs[..i]) == Ok(dialogue)
      invariant currentTime == StartTime(gaps, i)
    {
      var text := ScenarioText(scenarios[i].text, values);
      EntryStep(rs, i, dialogue);
      if text.Err? {
        return Err(text.error);
      }
      var persona := SpeakerOf(scenarios[i].speakerRole, rolePersonas);
      StartTimeNonNegative(gaps, i);
      dialogue := dialogue + [Entry(FormatTimestamp(currentTime), persona.0, persona.1, text.value)];
      StartTimeStep(gaps, i);
      currentTime := currentTime + gaps[i];
    }
    assert rs[..|rs|] == rs;
    return Ok(dialogue);
  }

  /** After `i` entries, entry `i` is appended or its error is the dialogue's. */
  lemma EntryStep(rs: seq<Result<Entry>>, i: nat, dialogue: seq<Entry>)
    requires i < |rs| && Collect(rs[..i]) == Ok(dialogue)
    ensures rs[i].Ok? ==> Collect(rs[..i + 1]) == Ok(dialogue + [rs[i].value])
    ensures rs[i].Err? ==> Collect(rs) == Err(rs[i].error)
  {
    CollectExtend(rs, i);
    if rs[i].Err? {
      CollectStaysFailed(rs, i + 1);
    }
  }

  /** One turn per scenario, in order, holding the scenario's text and stamped with the
      clock at its start; only a formatting error other than a missing key can stop it. */
  lemma {:induction false} ScenarioDialogueShape(scenarios: seq<Scenario>, context: Context, catalogue: seq<Persona>,
                                                 gaps: seq<int>)
    requires GapsInRange(gaps) && |gaps| == |scenarios|
    ensures var r, values := ScenarioDialogue(scenarios, context, catalogue, gaps), FormatValues(context);
            && (r.Ok? <==> forall i :: 0 <= i < |scenarios| ==> ScenarioText(scenarios[i].text, values).Ok?)
            && (r.Err? ==> r.error == "IndexError" || r.error == "ValueError")
            && (r.Ok? ==> |r.value| == |scenarios|
                          && forall i :: 0 <= i < |scenarios| ==>
                               && r.value[i].text == ScenarioText(scenarios[i].text, values).value
                               && r.value[i].timestamp == TurnStamp(gaps, i))
  {
    var values, personas := FormatValues(context), RolePersonas(ScenarioRoles(scenarios), RoleMap, Directory(catalogue));
    var rs := EntryResults(scenarios, values, personas, gaps);
    CollectMeaning(rs);
    forall i | 0 <= i < |scenarios|
      ensures rs[i].Ok? <==> ScenarioText(scenarios[i].text, values).Ok?
      ensures rs[i].Err? ==> rs[i].error == "IndexError" || rs[i].error == "ValueError"
    {
    }
    if Collect(rs).Err? {
      CollectErrorFrom(rs);
    }
  }

  /** A scenario whose role maps to a persona of the catalogue is spoken by that persona,
      under the persona's own role; any other is spoken by "Unknown" under the scenario's
      role. */
  lemma {:induction false} ScenarioSpeakers(scenarios: seq<Scenario>, context: Context, catalogue: seq<Persona>,
                                            gaps: seq<int>)
    requires GapsInRange(gaps) && |gaps| == |scenarios|
    ensures var r := ScenarioDialogue(scenarios, context, catalogue, gaps);
            r.Ok? ==> forall i :: 0 <= i < |scenarios| ==>
              var role := scenarios[i].speakerRole;
              if role in RoleMap && GetPersona(RoleMap[role], catalogue).Ok?
              then r.value[i].speaker == RoleMap[role] && r.value[i].role == GetPersona(RoleMap[role], catalogue).value.role
              else r.value[i].speaker == "Unknown" && r.value[i].role == role
  {
    SpeakersUnder(scenarios, FormatValues(context), RoleMap, Directory(catalogue), gaps);
  }

  /** `ScenarioSpeakers` for any role map and directory. */
  lemma SpeakersUnder(scenarios: seq<Scenario>, values: map<string, string>, roleMap: map<string, string>,
                      directory: map<string, Persona>, gaps: seq<int>)
    requires GapsInRange(gaps) && |gaps| == |scenarios|
    ensures var r := Collect(EntryResults(scenarios, values, RolePersonas(ScenarioRoles(scenarios), roleMap, directory), gaps));
            r.Ok? ==> forall i :: 0 <= i < |scenarios| ==>
              var role := scenarios[i].speakerRole;
              if role in roleMap && roleMap[role] in directory
              then r.value[i].speaker == directory[roleMap[role]].name && r.value[i].role == directory[roleMap[role]].role
              else r.value[i].speaker == "Unknown" && r.value[i].role == role
  {
    var personas := RolePersonas(ScenarioRoles(scenarios), roleMap, directory);
    var rs := EntryResults(scenarios, values, personas, gaps);
    var r := Collect(rs);
    CollectMeaning(rs);
    if r.Ok? {
      forall i | 0 <= i < |scenarios|
        ensures var role := scenarios[i].speakerRole;
                if role in roleMap && roleMap[role] in directory
                then r.value[i].speaker == directory[roleMap[role]].name && r.value[i].role == directory[roleMap[role]].role
                else r.value[i].speaker == "Unknown" && r.value[i].role == role
      {
        var role := scenarios[i].speakerRole;
        assert role in ScenarioRoles(scenarios);
        assert rs[i] == Ok(r.value[i]) == EntryAt(scenarios, values, personas, gaps, i);
        assert (r.value[i].speaker, r.value[i].role) == SpeakerOf(role, personas);
      }
    }
  }

  /** The first turn is stamped `[00:00:00]` and each later turn 30 to 180 seconds per
      turn after any earlier one. */
  lemma ScenarioStamps(scenarios: seq<Scenario>, context: Context, catalogue: seq<Persona>, gaps: seq<int>, j: nat, k: nat)
    requires GapsInRange(gaps) && |gaps| == |scenarios|
    requires ScenarioDialogue(scenarios, context, catalogue, gaps).Ok?
    requires j < k < |scenarios|
    ensures var d := ScenarioDialogue(scenarios, context, catalogue, gaps).value;
            && d[0].timestamp == "[00:00:00]"
            && ParseClock(d[j].timestamp).Ok? && ParseClock(d[k].timestamp).Ok?
            && 30 * (k - j) <= ClockSeconds(ParseClock(d[k].timestamp).value) - ClockSeconds(ParseClock(d[j].timestamp).value)
                            <= 180 * (k - j)
  {
    ScenarioDialogueShape(scenarios, context, catalogue, gaps);
    FirstTurnStamp(gaps);
    TurnStampsIncrease(gaps, j, k);
  }

  // ------------------------------------------------------------------------
  // _format_transcript: the participants
  // ------------------------------------------------------------------------

  /** A listed participant: the speaker's name and the role of their first turn. */
  datatype Attendee = Attendee(name: string, role: string)

  function Names(ps: seq<Attendee>): set<string> {
    set a | 0 <= a < |ps| :: ps[a].name
  }

  function Speakers(dialogue: seq<Entry>): set<string> {
    set j | 0 <= j < |dialogue| :: dialogue[j].speaker
  }

  /** The speakers in order of first appearance, each with the role of their first turn. */
  function FirstAppearances(dialogue: seq<Entry>): seq<Attendee>
    decreases |dialogue|
  {
    if dialogue == [] then []
    else
      var prev := FirstAppearances(dialogue[..|dialogue| - 1]);
      var d := dialogue[|dialogue| - 1];
      if d.speaker in Names(prev) then prev else prev + [Attendee(d.speaker, d.role)]
  }

  /** The participants loop of `_format_transcript`: a speaker not yet listed is added
      with the role of the turn. */
  method UniqueParticipants(dialogue: seq<Entry>) returns (participants: seq<Attendee>)
    ensures participants == FirstAppearances(dialogue)
  {
    participants := [];
    for j := 0 to |dialogue|
      invariant participants == FirstAppearances(dialogue[..j])
    {
      var d := dialogue[j];
      PrefixGrows(dialogue, j);
      assert dialogue[..j + 1][..j] == dialogue[..j];
      if d.speaker !in Names(participants) {
        participants := participants + [Attendee(d.speaker, d.role)];
      }
    }
    assert dialogue[..|dialogue|] == dialogue;
  }

  /** The one-step facts the lemmas below build on. */
  lemma FirstAppearancesStep(dialogue: seq<Entry>)
    requires dialogue != []
    ensures var n := |dialogue| - 1;
            var prev, d := FirstAppearances(dialogue[..n]), dialogue[n];
            && FirstAppearances(dialogue) == (if d.speaker in Names(prev) then prev else prev + [Attendee(d.speaker, d.role)])
            && Speakers(dialogue) == Speakers(dialogue[..n]) + {d.speaker}
            && forall j :: 0 <= j < n ==> dialogue[..n][j] == dialogue[j]
  {
    SpeakersGrow(dialogue[..|dialogue| - 1], dialogue);
  }

  lemma SpeakersGrow(init: seq<Entry>, dialogue: seq<Entry>)
    requires |dialogue| == |init| + 1 && init == dialogue[..|init|]
    ensures Speakers(dialogue) == Speakers(init) + {dialogue[|init|].speaker}
  {
    var n := |init|;
    forall x | x in Speakers(dialogue) ensures x in Speakers(init) + {dialogue[n].speaker} {
      var j :| 0 <= j < |dialogue| && dialogue[j].speaker == x;
      if j < n {
        assert init[j] == dialogue[j];
      }
    }
    forall x | x in Speakers(init) ensures x in Speakers(dialogue) {
      var j :| 0 <= j < n && init[j].speaker == x;
      assert dialogue[j] == init[j];
    }
  }

  lemma NamesAppend(ps: seq<Attendee>, a: Attendee)
    ensures Names(ps + [a]) == Names(ps) + {a.name}
  {
    var qs := ps + [a];
    assert qs[|ps|] == a;
    forall x | x in Names(qs) ensures x in Names(ps) + {a.name} {
      var i :| 0 <= i < |qs| && qs[i].name == x;
      if i < |ps| {
        assert qs[i] == ps[i];
      }
    }
    forall x | x in Names(ps) ensures x in Names(qs) {
      var i :| 0 <= i < |ps| && ps[i].name == x;
      assert qs[i] == ps[i];
    }
  }

  /** Every speaker is listed, and only speakers are. */
  lemma {:induction false} FirstAppearancesCover(dialogue: seq<Entry>)
    ensures Names(FirstAppearances(dialogue)) == Speakers(dialogue)
    decreases |dialogue|
  {
    if dialogue != [] {
      var n := |dialogue| - 1;
      FirstAppearancesStep(dialogue);
      FirstAppearancesCover(dialogue[..n]);
      NamesAppend(FirstAppearances(dialogue[..n]), Attendee(dialogue[n].speaker, dialogue[n].role));
    }
  }

  /** Nobody is listed twice. */
  lemma {:induction false} FirstAppearancesDistinct(dialogue: seq<Entry>)
    ensures var ps := FirstAppearances(dialogue);
            forall a, b :: 0 <= a < b < |ps| ==> ps[a].name != ps[b].name
    decreases |dialogue|
  {
    if dialogue != [] {
      var n := |dialogue| - 1;
      FirstAppearancesStep(dialogue);
      FirstAppearancesDistinct(dialogue[..n]);
      var prev := FirstAppearances(dialogue[..n]);
      var ps := FirstAppearances(dialogue);
      if dialogue[n].speaker !in Names(prev) {
        forall a, b | 0 <= a < b < |ps| ensures ps[a].name != ps[b].name {
          assert ps[a] == prev[a];
          if b < |prev| {
            assert ps[b] == prev[b];
          } else {
            assert ps[a].name in Names(prev);
          }
        }
      }
    }
  }

  /** Each listed participant is a turn's speaker and role, at the turn where that speaker
      first speaks. */
  lemma {:induction false} FirstAppearancesFirstRole(dialogue: seq<Entry>)
    ensures var ps := FirstAppearances(dialogue);
            forall a :: 0 <= a < |ps| ==>
              exists j :: (&& 0 <= j < |dialogue|
                           && ps[a] == Attendee(dialogue[j].speaker, dialogue[j].role)
                           && forall k :: 0 <= k < j ==> dialogue[k].speaker != dialogue[j].speaker)
    decreases |dialogue|
  {
    if dialogue != [] {
      var n := |dialogue| - 1;
      FirstAppearancesStep(dialogue);
      FirstAppearancesFirstRole(dialogue[..n]);
      FirstAppearancesCover(dialogue[..n]);
      var prev := FirstAppearances(dialogue[..n]);
      var ps := FirstAppearances(dialogue);
      forall a | 0 <= a < |ps|
        ensures exists j :: (&& 0 <= j < |dialogue|
                             && ps[a] == Attendee(dialogue[j].speaker, dialogue[j].role)
                             && forall k :: 0 <= k < j ==> dialogue[k].speaker != dialogue[j].speaker)
      {
        if a < |prev| {
          assert ps[a] == prev[a];
          var j :| 0 <= j < n && prev[a] == Attendee(dialogue[..n][j].speaker, dialogue[..n][j].role)
                   && forall k :: 0 <= k < j ==> dialogue[..n][k].speaker != dialogue[..n][j].speaker;
          assert dialogue[..n][j] == dialogue[j];
        } else {
          forall k | 0 <= k < n ensures dialogue[k].speaker != dialogue[n].speaker {
            assert dialogue[..n][k] == dialogue[k];
            assert dialogue[k].speaker in Speakers(dialogue[..n]);
          }
        }
      }
    }
  }

  /** Someone named `name` speaks before turn `j`. */
  predicate SpokeBefore(dialogue: seq<Entry>, name: string, j: int) {
    exists k :: 0 <= k < j && k < |dialogue| && dialogue[k].speaker == name
  }

  /** The order is that of first appearance: whenever a participant speaks, everyone
      listed before them has already spoken. */
  lemma {:induction false} FirstAppearancesOrder(dialogue: seq<Entry>)
    ensures var ps := FirstAppearances(dialogue);
            forall a, b, j :: 0 <= a < b < |ps| && 0 <= j < |dialogue| && dialogue[j].speaker == ps[b].name ==>
              SpokeBefore(dialogue, ps[a].name, j)
    decreases |dialogue|
  {
    if dialogue != [] {
      var n := |dialogue| - 1;
      var before := dialogue[..n];
      FirstAppearancesStep(dialogue);
      FirstAppearancesOrder(before);
      FirstAppearancesCover(before);
      var prev := FirstAppearances(before);
      var ps := FirstAppearances(dialogue);
      forall a, b, j | 0 <= a < b < |ps| && 0 <= j < |dialogue| && dialogue[j].speaker == ps[b].name
        ensures SpokeBefore(dialogue, ps[a].name, j)
      {
        assert ps[a] == prev[a];
        if b < |prev| && j < n {
          assert ps[b] == prev[b];
          assert before[j] == dialogue[j];
          assert SpokeBefore(before, prev[a].name, j);
          var k :| 0 <= k < j && k < |before| && before[k].speaker == prev[a].name;
          assert dialogue[k] == before[k];
        } else if j < n {
          // ps[b] is the speaker first heard at turn n, so no earlier turn has it
          assert false;
        } else {
          assert prev[a].name in Names(prev);
          var k :| 0 <= k < n && before[k].speaker == prev[a].name;
          assert dialogue[k] == before[k];
        }
      }
    }
  }

  // ------------------------------------------------------------------------
  // _get_team_for_role
  // ------------------------------------------------------------------------

  const TeamMap: map<string, string> :=
    map["Project Manager" := "ANF Store Development", "General Contractor" := "BuildRight Construction",
        "Procurement Manager" := "ANF", "Store Manager" := "ANF", "VP Store Development" := "ANF",
        "Finance Analyst" := "ANF Finance", "Design Lead" := "ANF Design", "Architect" := "ANF Design"]

  /** `_get_team_for_role`: the mapped team, `ANF` for any other role. */
  function TeamForRole(role: string): (team: string)
    ensures role !in TeamMap ==> team == "ANF"
  {
    if role in TeamMap then TeamMap[role] else "ANF"
  }

  /** The team map knows exactly the roles the persona map knows. */
  lemma TeamMapMatchesRoleMap()
    ensures TeamMap.Keys == RoleMap.Keys
  {
  }

  // ------------------------------------------------------------------------
  // _format_transcript: duration, store or topic, title
  // ------------------------------------------------------------------------

  /** The DURATION minutes: `hours * 60 + minutes` of the last stamp, whose three fields
      must all read as integers. */
  function DialogueDuration(dialogue: seq<Entry>): (r: Result<nat>)
    ensures dialogue == [] ==> r == Err("IndexError")
    ensures dialogue != [] ==> (r.Ok? <==> ParseClock(dialogue[|dialogue| - 1].timestamp).Ok?)
  {
    if dialogue == [] then Err("IndexError")
    else
      var c := ParseClock(dialogue[|dialogue| - 1].timestamp);
      if c.Ok? then Ok(ClockMinutes(c.value)) else Err(c.error)
  }

  /** The duration of a generated dialogue is the whole minutes on the clock when its last
      turn starts. */
  lemma ScenarioDuration(scenarios: seq<Scenario>, context: Context, catalogue: seq<Persona>, gaps: seq<int>)
    requires GapsInRange(gaps) && |gaps| == |scenarios| && scenarios != []
    requires ScenarioDialogue(scenarios, context, catalogue, gaps).Ok?
    ensures DialogueDuration(ScenarioDialogue(scenarios, context, catalogue, gaps).value)
            == Ok(StartTime(gaps, |scenarios| - 1) / 60)
  {
    ScenarioDialogueShape(scenarios, context, catalogue, gaps);
    var t := StartTime(gaps, |scenarios| - 1);
    StartTimeNonNegative(gaps, |scenarios| - 1);
    ParseFormatRoundTrip(t);
    StampMinutesOfFormat(t);
  }

  /** `config.get('store_id') or config.get('topic', default)`. */
  function StoreTopic(config: MeetingConfig, default: string): string {
    if Truthy(config.storeId) then config.storeId.s
    else match config.topic
      case Absent => default
      case NoneValue => "None"
      case Str(t) => t
  }

  /** `meeting_titles.get(meeting_type, meeting_type.title())`. */
  function MeetingTitle(meetingType: MeetingType): string {
    match meetingType
    case SiteVisitDebrief => "Site Visit Debrief"
    case VendorNegotiation => "Vendor Negotiation"
    case LessonsLearned => "Lessons Learned"
    case DesignReview => "Design Review"
    case WeeklyDevSync => "Weekly Dev Sync"
    case OtherType(name) => Title(name)
  }

  // ------------------------------------------------------------------------
  // _generate_tags
  // ------------------------------------------------------------------------

  /** The fixed tags of each meeting type. */
  function TypeTags(meetingType: MeetingType): set<string> {
    match meetingType
    case SiteVisitDebrief => {"electrical-upgrade", "site-constraints"}
    case VendorNegotiation => {"hvac-pricing", "lead-times", "vendor-contract"}
    case LessonsLearned => {"cost-variance", "lessons-learned"}
    case DesignReview => {"template-update", "design-standards"}
    case WeeklyDevSync => {"project-status", "weekly-sync"}
    case OtherType(_) => {}
  }

  /** A store id of the context when it is truthy. */
  function ContextTag(context: Context, key: string): set<string> {
    if key in context && context[key].StrV? && context[key].s != "" then {context[key].s} else {}
  }

  /** `_generate_tags`: the tags as the set `list(set(tags))` is taken from; the list's
      order is that of the set and not modelled. */
  function TagSet(meetingType: MeetingType, config: MeetingConfig, context: Context): (tags: set<string>)
    ensures Truthy(config.storeId) ==> config.storeId.s in tags
    ensures TypeTags(meetingType) <= tags
  {
    (if Truthy(config.storeId) then {config.storeId.s} else {})
    + ContextTag(context, "store_id") + ContextTag(context, "historical_store")
    + TypeTags(meetingType)
  }

  /** A site-visit debrief of `Store-n` has four distinct tags: the store id, appended
      twice but kept once, the reference store and the two fixed tags. */
  lemma SiteVisitTags(config: MeetingConfig, today: Day, n: nat)
    requires config.storeId == Str("Store-" + NatToString(n))
    ensures var r := PrepareContext(SiteVisitDebrief, config, today);
            && r.Ok?
            && TagSet(SiteVisitDebrief, config, r.value)
               == {"Store-" + NatToString(n), "Store-" + IntToString(n - 12), "electrical-upgrade", "site-constraints"}
            && |TagSet(SiteVisitDebrief, config, r.value)| == 4
  {
    HistoricalStoreOf(config, today, n);
    TagsOfStores(config, PrepareContext(SiteVisitDebrief, config, today).value, n);
  }

  lemma TagsOfStores(config: MeetingConfig, ctx: Context, n: nat)
    requires config.storeId == Str("Store-" + NatToString(n))
    requires "store_id" in ctx && ctx["store_id"] == StrV("Store-" + NatToString(n))
    requires "historical_store" in ctx && ctx["historical_store"] == StrV("Store-" + IntToString(n - 12))
    ensures TagSet(SiteVisitDebrief, config, ctx)
            == {"Store-" + NatToString(n), "Store-" + IntToString(n - 12), "electrical-upgrade", "site-constraints"}
    ensures |TagSet(SiteVisitDebrief, config, ctx)| == 4
  {
    var a, b := "Store-" + NatToString(n), "Store-" + IntToString(n - 12);
    assert ContextTag(ctx, "store_id") == {a};
    assert ContextTag(ctx, "historical_store") == {b};
    StoreIdsDiffer(n);
    FourTags(a, b);
  }

  /** A store and its reference store have different ids. */
  lemma StoreIdsDiffer(n: nat)
    ensures "Store-" + NatToString(n) != "Store-" + IntToString(n - 12)
  {
    var a, b := "Store-" + NatToString(n), "Store-" + IntToString(n - 12);
    if n >= 12 {
      ParseNatToString(n);
      ParseNatToString(n - 12);
      assert a[6..] == NatToString(n) && b[6..] == NatToString(n - 12);
    } else {
      assert b[6] == '-' && a[6] == NatToString(n)[0];
    }
  }

  lemma FourTags(a: string, b: string)
    requires a != b && |a| >= 1 && |b| >= 1 && a[0] == 'S' && b[0] == 'S'
    ensures |{a, b, "electrical-upgrade", "site-constraints"}| == 4
  {
    assert a != "electrical-upgrade" && a != "site-constraints";
    assert b != "electrical-upgrade" && b != "site-constraints";
  }

  // ------------------------------------------------------------------------
  // _generate_action_items and _generate_references
  // ------------------------------------------------------------------------

  /** `_generate_action_items`: fixed items per meeting type, all due the Friday after the
      meeting date. */
  function ActionItems(meetingType: MeetingType, date: Day): (items: seq<MeetingTranscripts.ActionItem>)
    ensures |items| == (match meetingType case WeeklyDevSync => 1 case OtherType(_) => 0 case _ => 2)
    ensures forall i :: 0 <= i < |items| ==> items[i].dueDate == Some(DateText(NextFriday(date)))
  {
    var tasks := Tasks(meetingType);
    var due := Some(DateText(NextFriday(date)));
    seq(|tasks|, i requires 0 <= i < |tasks| => MeetingTranscripts.ActionItem(tasks[i].0, tasks[i].1, due))
  }

  /** The description and owner of each action item of a meeting type. */
  function Tasks(meetingType: MeetingType): (tasks: seq<(string, string)>)
    ensures |tasks| == (match meetingType case WeeklyDevSync => 1 case OtherType(_) => 0 case _ => 2)
  {
    match meetingType
    case SiteVisitDebrief =>
      [("Update cost estimate with electrical upgrade", "Sarah Chen"),
       ("Add landlord vendor constraint to constraints database", "Sarah Chen")]
    case VendorNegotiation =>
      [("Prepare formal quote based on discussion", "Tom Wilson"),
       ("Review volume commitment with project team", "Jennifer Liu")]
    case LessonsLearned =>
      [("Add learnings to knowledge base", "Sarah Chen"), ("Share insights with broader team", "Sarah Chen")]
    case DesignReview =>
      [("Distribute updated template documentation", "Carlos Martinez"),
       ("Schedule training sessions for project teams", "Carlos Martinez")]
    case WeeklyDevSync => [("Confirm vendor availability for site visits", "Jennifer Liu")]
    case OtherType(_) => []
  }

  /** `context.get(key, default)`. */
  function Get(context: Context, key: string, default: Value): Value {
    if key in context then context[key] else default
  }

  /** `f"{v:,}"`: an integer with thousands separators; a string or `None` does not take
      the `,` option. */
  function CommaGrouped(v: Value): (r: Result<string>)
    ensures r.Ok? <==> v.IntV?
  {
    match v
    case IntV(i) => Ok(WithCommas(i))
    case StrV(_) => Err("ValueError")
    case NoneV => Err("TypeError")
  }

  /** `_generate_references`: two lines for a site-visit debrief with a reference store,
      for a lessons-learned meeting with a store and for a design review with a template
      version, none otherwise. */
  function References(meetingType: MeetingType, context: Context): (r: Result<seq<string>>)
    ensures r.Err? ==> meetingType == SiteVisitDebrief
    ensures r.Ok? ==> |r.value| == 0 || |r.value| == 2
  {
    if meetingType == SiteVisitDebrief && "historical_store" in context then
      var cost := CommaGrouped(Get(context, "historical_cost", IntV(0)));
      if cost.Err? then Err(cost.error)
      else
        Ok(["Historical Store: " + RenderValue(context["historical_store"]) + " (electrical: $" + cost.value + " actual)",
            "Regional Modifier: regional_modifiers.csv (" + RenderValue(Get(context, "market", StrV("Market")))
              + " electrical: " + RenderValue(Get(context, "modifier", StrV("1.0"))) + "x)"])
    else if meetingType == LessonsLearned && "store_id" in context then
      Ok(["Historical Store: " + RenderValue(context["store_id"]) + " (electrical variance analysis)",
          "Vendor: " + RenderValue(Get(context, "backup_vendor", StrV("TempMaster"))) + " (backup vendor with better pricing)"])
    else if meetingType == DesignReview && "template_version" in context then
      Ok(["Template: base_template.json version " + RenderValue(context["template_version"]),
          "Cost Model: Updated electrical panel specification"])
    else Ok([])
  }

  // ------------------------------------------------------------------------
  // _format_transcript: the layout
  // ------------------------------------------------------------------------

  function ParticipantLine(a: Attendee): string {
    "  - " + a.name + " (" + a.role + ") - " + TeamForRole(a.role)
  }

  function EntryLine(d: Entry): string {
    d.timestamp + " " + d.speaker + ": " + d.text
  }

  function ParticipantLines(participants: seq<Attendee>): (r: seq<string>)
    ensures |r| == |participants| && forall i :: 0 <= i < |participants| ==> r[i] == ParticipantLine(participants[i])
  {
    seq(|participants|, i requires 0 <= i < |participants| => ParticipantLine(participants[i]))
  }

  /** The header: meeting title, date, one line per participant, duration, store or topic. */
  function HeaderLines(title: string, date: string, participants: seq<string>, duration: string, storeTopic: string)
    : (r: seq<string>)
    ensures |r| == 7 + |participants|
    ensures r[0] == "MEETING: " + title && r[1] == "DATE: " + date && r[2] == "PARTICIPANTS:"
    ensures r[3..3 + |participants|] == participants
    ensures r[3 + |participants|] == "DURATION: " + duration
    ensures r[4 + |participants|] == "STORE/TOPIC: " + storeTopic
    ensures r[5 + |participants|] == "---" && r[6 + |participants|] == ""
  {
    var head := ["MEETING: " + title, "DATE: " + date, "PARTICIPANTS:"];
    var tail := ["DURATION: " + duration, "STORE/TOPIC: " + storeTopic, "---", ""];
    MeetingTranscripts.ConcatThree(head, participants, tail);
    assert (head + participants + tail)[3..3 + |participants|] == participants;
    head + participants + tail
  }

  function EntryLines(dialogue: seq<Entry>): (r: seq<string>)
    ensures |r| == |dialogue| && forall j :: 0 <= j < |dialogue| ==> r[j] == EntryLine(dialogue[j])
  {
    seq(|dialogue|, j requires 0 <= j < |dialogue| => EntryLine(dialogue[j]))
  }

  /** The body of a transcript: the header, one line per turn, the tag line, then the
      action-item and reference blocks. */
  function Assemble(header: seq<string>, entries: seq<string>, tags: seq<string>, items: seq<MeetingTranscripts.ActionItem>,
                    refs: seq<string>): seq<string>
  {
    header + entries + ["", "---", "TAGS: " + Join(tags, ", ")]
    + (MeetingTranscripts.ActionBlock(items) + MeetingTranscripts.ReferenceBlock(refs))
  }

  /** The lines of `_format_transcript`, given the duration, the tags in the order the set
      yields them and the references. */
  function TranscriptLines(meetingType: MeetingType, config: MeetingConfig, dialogue: seq<Entry>, duration: nat,
                           tags: seq<string>, refs: seq<string>): seq<string>
  {
    Assemble(HeaderLines(MeetingTitle(meetingType), DateText(config.date), ParticipantLines(FirstAppearances(dialogue)),
                         FormatDuration(duration), StoreTopic(config, "General")),
             EntryLines(dialogue), tags, ActionItems(meetingType, config.date), refs)
  }

  /** `_format_transcript`: the lines joined by newlines, or the error met reading the
      duration or writing the references. */
  function FormatTranscript(meetingType: MeetingType, config: MeetingConfig, dialogue: seq<Entry>, context: Context,
                            tags: seq<string>): (r: Result<string>)
    ensures dialogue == [] ==> r == Err("IndexError")
    ensures r.Ok? ==> DialogueDuration(dialogue).Ok? && References(meetingType, context).Ok?
  {
    var duration := DialogueDuration(dialogue);
    if duration.Err? then Err(duration.error)
    else
      var refs := References(meetingType, context);
      if refs.Err? then Err(refs.error)
      else Ok(Join(TranscriptLines(meetingType, config, dialogue, duration.value, tags, refs.value), "\n"))
  }

  /** The layout: the header (whose lines `HeaderLines` states), one line per turn in
      order, a blank line, a rule and the tags, then the action items and the references,
      each block present only when it has entries. */
  lemma AssembleLayout(header: seq<string>, entries: seq<string>, tags: seq<string>,
                       items: seq<MeetingTranscripts.ActionItem>, refs: seq<string>)
    ensures var lines := Assemble(header, entries, tags, items, refs);
            var h, d := |header|, |entries|;
            && |lines| == h + d + 3 + (if items == [] then 0 else |items| + 1) + (if refs == [] then 0 else |refs| + 1)
            && lines[..h] == header
            && lines[h..h + d] == entries
            && lines[h + d] == "" && lines[h + d + 1] == "---"
            && lines[h + d + 2] == "TAGS: " + Join(tags, ", ")
            && lines[h + d + 3..] == MeetingTranscripts.ActionBlock(items) + MeetingTranscripts.ReferenceBlock(refs)
  {
    var a, b := MeetingTranscripts.ActionBlock(items), MeetingTranscripts.ReferenceBlock(refs);
    MeetingTranscripts.ConcatParts(header, entries, ["", "---", "TAGS: " + Join(tags, ", ")], a + b);
  }

  // ------------------------------------------------------------------------
  // _save_transcript
  // ------------------------------------------------------------------------

  /** The file name `{meeting_type}_{store_topic}_{date}.txt`. */
  function TranscriptFilename(meetingType: MeetingType, config: MeetingConfig): string {
    TypeName(meetingType) + "_" + StoreTopic(config, "general") + "_" + DateText(config.date) + ".txt"
  }

  /** With a falsy store id the file is named after the topic: a topic that is present
      but `None` is written "None", a missing one "general", while the transcript's
      STORE/TOPIC line says "General" for it. */
  lemma FilenameWithoutStore(meetingType: MeetingType, config: MeetingConfig)
    requires !Truthy(config.storeId)
    ensures config.topic.NoneValue? ==>
              TranscriptFilename(meetingType, config) == TypeName(meetingType) + "_None_" + DateText(config.date) + ".txt"
    ensures config.topic.Absent? ==>
              && TranscriptFilename(meetingType, config) == TypeName(meetingType) + "_general_" + DateText(config.date) + ".txt"
              && StoreTopic(config, "General") == "General"
  {
    var m, d := TypeName(meetingType), DateText(config.date);
    assert m + "_" + "None" + "_" + d + ".txt" == m + "_None_" + d + ".txt";
    assert m + "_" + "general" + "_" + d + ".txt" == m + "_general_" + d + ".txt";
  }

  /** A truthy store id names the file. */
  lemma FilenameWithStore(meetingType: MeetingType, config: MeetingConfig)
    requires Truthy(config.storeId)
    ensures TranscriptFilename(meetingType, config)
            == TypeName(meetingType) + "_" + config.storeId.s + "_" + DateText(config.date) + ".txt"
  {
  }
}
