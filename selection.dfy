/** The active selection of the build information: the list of targets, the
    default target (set lazily to the first target), and, per target identity,
    the configuration chosen for that target. */
module Selection {
  import opened Seqs
  import opened BuildModel

  /** The part of the build information the selection rules read and write. */
  datatype BuildState = BuildState(
    targets: seq<Target>,
    defaultTarget: Option<Target>,
    defaultConfigurations: map<string, Configuration>)

  /** `getDefaultTarget` can answer: a default was set, or there is a first target. */
  predicate HasDefault(s: BuildState)
  {
    s.defaultTarget.Some? || |s.targets| > 0
  }

  /** What `getDefaultTarget` answers: the default if one was set, else the first target. */
  function EffectiveDefaultTarget(s: BuildState): (r: Target)
    requires HasDefault(s)
    ensures s.defaultTarget.Some? ==> r == s.defaultTarget.value
    ensures s.defaultTarget.None? ==> r == s.targets[0]
  {
    if s.defaultTarget.Some? then s.defaultTarget.value else s.targets[0]
  }

  /** The state after `getDefaultTarget` has stored its answer. */
  function WithDefaultResolved(s: BuildState): (r: BuildState)
    requires HasDefault(s)
  {
    s.(defaultTarget := Some(EffectiveDefaultTarget(s)))
  }

  /** `getDefaultConfiguration(target)`: the configuration chosen for the
      target's identity, or else the first configuration of the default target
      (whichever target was asked about), or `None` when that has none. */
  function DefaultConfigurationOf(s: BuildState, target: Target): Option<Configuration>
    requires target.id in s.defaultConfigurations || HasDefault(s)
  {
    if target.id in s.defaultConfigurations then Some(s.defaultConfigurations[target.id])
    else if |EffectiveDefaultTarget(s).configurations| > 0 then Some(EffectiveDefaultTarget(s).configurations[0])
    else None
  }

  /** The configuration every query works on: the default configuration of the default target. */
  function ActiveConfiguration(s: BuildState): Option<Configuration>
    requires HasDefault(s)
  {
    DefaultConfigurationOf(s, EffectiveDefaultTarget(s))
  }

  /** `setDefaultTarget(target)`: nothing changes when the current default has
      the same identity; otherwise `target` becomes the default. */
  function SetDefaultTarget(s: BuildState, target: Target): BuildState
  {
    if s.defaultTarget.Some? && s.defaultTarget.value.id == target.id then s
    else s.(defaultTarget := Some(target))
  }

  /** `setDefaultConfiguration(config)`: the owning target becomes the default
      and `config` is chosen for it. */
  function SetDefaultConfiguration(s: BuildState, config: Configuration, owner: Target): BuildState
    requires owner.id == config.targetId
  {
    var s1 := SetDefaultTarget(s, owner);
    s1.(defaultConfigurations := s1.defaultConfigurations[owner.id := config])
  }

  /** The default target is lazy and sticky: resolving it stores the answer,
      leaves everything else alone, and resolving again changes nothing. */
  lemma DefaultTargetSticky(s: BuildState)
    requires HasDefault(s)
    ensures WithDefaultResolved(s).defaultTarget == Some(EffectiveDefaultTarget(s))
    ensures s.defaultTarget.None? ==> EffectiveDefaultTarget(s) == s.targets[0]
    ensures HasDefault(WithDefaultResolved(s))
    ensures EffectiveDefaultTarget(WithDefaultResolved(s)) == EffectiveDefaultTarget(s)
    ensures WithDefaultResolved(WithDefaultResolved(s)) == WithDefaultResolved(s)
    ensures WithDefaultResolved(s).targets == s.targets
    ensures WithDefaultResolved(s).defaultConfigurations == s.defaultConfigurations
    ensures s.defaultTarget.Some? ==> WithDefaultResolved(s) == s
  {
  }

  /** Resolving the default target does not change any configuration answer. */
  lemma ResolvingKeepsConfigurations(s: BuildState, target: Target)
    requires HasDefault(s)
    ensures HasDefault(WithDefaultResolved(s))
    ensures DefaultConfigurationOf(WithDefaultResolved(s), target) == DefaultConfigurationOf(s, target)
    ensures ActiveConfiguration(WithDefaultResolved(s)) == ActiveConfiguration(s)
  {
    DefaultTargetSticky(s);
  }

  /** After `setDefaultTarget(target)` the default has the identity of `target`;
      it is `target` itself unless the default already had that identity; the
      targets and the chosen configurations do not change. */
  lemma SetDefaultTargetSelects(s: BuildState, target: Target)
    ensures HasDefault(SetDefaultTarget(s, target))
    ensures EffectiveDefaultTarget(SetDefaultTarget(s, target)).id == target.id
    ensures (s.defaultTarget.Some? && s.defaultTarget.value.id == target.id) <==>
            SetDefaultTarget(s, target).defaultTarget == s.defaultTarget
    ensures !(s.defaultTarget.Some? && s.defaultTarget.value.id == target.id) ==>
            EffectiveDefaultTarget(SetDefaultTarget(s, target)) == target
    ensures SetDefaultTarget(s, target).targets == s.targets
    ensures SetDefaultTarget(s, target).defaultConfigurations == s.defaultConfigurations
  {
  }

  /** After `setDefaultConfiguration(config)` the default target has the
      identity of the configuration's target, `config` is the answer for that
      target and the configuration every query works on, and the choice for
      every other target identity is unchanged. */
  lemma SetDefaultConfigurationSelects(s: BuildState, config: Configuration, owner: Target)
    requires owner.id == config.targetId
    ensures HasDefault(SetDefaultConfiguration(s, config, owner))
    ensures EffectiveDefaultTarget(SetDefaultConfiguration(s, config, owner)).id == config.targetId
    ensures DefaultConfigurationOf(SetDefaultConfiguration(s, config, owner), owner) == Some(config)
    ensures ActiveConfiguration(SetDefaultConfiguration(s, config, owner)) == Some(config)
    ensures forall id :: id != owner.id ==>
              (id in SetDefaultConfiguration(s, config, owner).defaultConfigurations <==> id in s.defaultConfigurations)
    ensures forall id :: id != owner.id && id in s.defaultConfigurations ==>
              SetDefaultConfiguration(s, config, owner).defaultConfigurations[id] == s.defaultConfigurations[id]
    ensures SetDefaultConfiguration(s, config, owner).targets == s.targets
  {
    SetDefaultTargetSelects(s, owner);
  }

  /** A target with no chosen configuration gets the first configuration of the
      default target: the answer is the same for every unchosen target, and it
      is `None` exactly when the default target has no configurations. */
  lemma UnchosenFallsBack(s: BuildState, a: Target, b: Target)
    requires HasDefault(s)
    requires a.id !in s.defaultConfigurations && b.id !in s.defaultConfigurations
    ensures DefaultConfigurationOf(s, a) == DefaultConfigurationOf(s, b)
    ensures DefaultConfigurationOf(s, a).None? <==> EffectiveDefaultTarget(s).configurations == []
    ensures DefaultConfigurationOf(s, a).Some? ==> DefaultConfigurationOf(s, a).value in EffectiveDefaultTarget(s).configurations
    ensures EffectiveDefaultTarget(s).configurations != [] ==>
              DefaultConfigurationOf(s, a) == Some(EffectiveDefaultTarget(s).configurations[0])
  {
  }

  /** The fallback can answer with a configuration of another target: a target
      with no choice and no configurations of its own, under a default target
      that has one, is given the default target's configuration. */
  lemma FallbackFromAnotherTarget(s: BuildState, t: Target, c: Configuration)
    requires s.defaultTarget.Some? && s.defaultTarget.value.configurations == [c]
    requires t.id !in s.defaultConfigurations && t.configurations == []
    ensures DefaultConfigurationOf(s, t) == Some(c) && c !in t.configurations
  {
  }
}
