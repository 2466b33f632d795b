/** What a node says its models can do, and what a task needs. */
module ModelRouting {

  datatype Mode = Mode(scenario: string, durations: seq<int>, roles: seq<string>)

  datatype Capability = Capability(
    modes: seq<Mode>, inputSources: seq<string>, resolutions: seq<string>, maxMedia: int)

  datatype Requirements = Requirements(
    scenario: string, duration: int, resolution: string,
    roles: seq<string>, inputSources: seq<string>, mediaCount: int)

  predicate Supports(c: Capability, scenario: string, duration: int) {
    exists m | m in c.modes :: m.scenario == scenario && duration in m.durations
  }

  predicate HasMode(c: Capability, scenario: string) {
    exists m | m in c.modes :: m.scenario == scenario
  }

  /** The first mode that fits scenario and duration decides about the roles. */
  predicate RolesFit(modes: seq<Mode>, r: Requirements) {
    modes != [] &&
    if modes[0].scenario == r.scenario && r.duration in modes[0].durations
    then modes[0].roles == [] || forall role | role in r.roles :: role in modes[0].roles
    else RolesFit(modes[1..], r)
  }

  predicate Accepts(c: Capability, r: Requirements) {
    && Supports(c, r.scenario, r.duration)
    && (c.maxMedia > 0 ==> r.mediaCount <= c.maxMedia)
    && (c.resolutions != [] ==> r.resolution in c.resolutions)
    && (c.inputSources != [] ==> forall s | s in r.inputSources :: s in c.inputSources)
    && RolesFit(c.modes, r)
  }
}
