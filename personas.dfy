/** The persona catalogue (`personas.json`'s `participants` list) and the two lookups the
    meeting and Teams generators share: by name, which raises when nobody has the name,
    and by role, which gives `None`. */
module Personas {
  import opened Common

  /** One catalogue entry; `team` and the phrases are optional keys of the entry. */
  datatype Persona = Persona(name: string, role: string, team: Option<string>, phrases: seq<string>)

  /** `persona.get('team', '')`. */
  function TeamOrEmpty(p: Persona): (t: string)
    ensures p.team.Some? ==> t == p.team.value
    ensures p.team.None? ==> t == ""
  {
    if p.team.Some? then p.team.value else ""
  }

  /** `_get_persona`: the first entry with the name, else `ValueError`. */
  function GetPersona(name: string, catalogue: seq<Persona>): (r: Result<Persona>)
    ensures r.Ok? <==> exists i :: 0 <= i < |catalogue| && catalogue[i].name == name
    ensures r.Ok? ==> r.value.name == name && r.value in catalogue
    ensures r.Ok? ==> (exists i :: 0 <= i < |catalogue| && catalogue[i] == r.value
                                && (forall j :: 0 <= j < i ==> catalogue[j].name != name))
    ensures r.Err? ==> r.error == "ValueError"
    decreases |catalogue|
  {
    if catalogue == [] then Err("ValueError")
    else if catalogue[0].name == name then Ok(catalogue[0])
    else
      var rest := GetPersona(name, catalogue[1..]);
      assert forall i :: 1 <= i < |catalogue| ==> catalogue[i] == catalogue[1..][i - 1];
      rest
  }

  /** `_get_persona_by_role`: the first entry with the role, else `None`. */
  function GetPersonaByRole(role: string, catalogue: seq<Persona>): (r: Option<Persona>)
    ensures r.Some? <==> exists i :: 0 <= i < |catalogue| && catalogue[i].role == role
    ensures r.Some? ==> r.value.role == role && r.value in catalogue
    ensures r.Some? ==> (exists i :: 0 <= i < |catalogue| && catalogue[i] == r.value
                                  && (forall j :: 0 <= j < i ==> catalogue[j].role != role))
    decreases |catalogue|
  {
    if catalogue == [] then None
    else if catalogue[0].role == role then Some(catalogue[0])
    else
      var rest := GetPersonaByRole(role, catalogue[1..]);
      assert forall i :: 1 <= i < |catalogue| ==> catalogue[i] == catalogue[1..][i - 1];
      rest
  }
}
