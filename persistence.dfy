/** Saving and loading the build information, over a list of abstract nodes in
    place of the children of the XML element: a `target` node per target, each
    followed by a `defaultConfig` node with the identity of its configuration,
    and one `defaultTarget` node with the identity of the default target. */
module Persistence {
  import opened Seqs
  import opened BuildModel
  import opened Selection

  /** A child of the saved element. A target node stands for the element a
      target writes of itself and reads back; `OtherNode` is any other child,
      which loading skips. */
  datatype Node =
    | TargetNode(target: Target)
    | DefaultConfigNode(id: string)
    | DefaultTargetNode(id: string)
    | OtherNode(name: string)

  // ---- serialize ----

  /** The nodes `serialize` writes for one target: the target, then its
      default configuration's identity when it has one. */
  function TargetNodes(s: BuildState): Target -> seq<Node>
    requires HasDefault(s)
  {
    (t: Target) =>
      [TargetNode(t)] +
      (match DefaultConfigurationOf(s, t)
       case Some(c) => [DefaultConfigNode(c.id)]
       case None => [])
  }

  /** `serialize`: the nodes of every target in order, then the default target. */
  function SerializedNodes(s: BuildState): seq<Node>
    requires HasDefault(s)
  {
    Flatten(s.targets, TargetNodes(s)) + [DefaultTargetNode(EffectiveDefaultTarget(s).id)]
  }

  // ---- loading ----

  function TargetOf(n: Node): seq<Target>
  {
    if n.TargetNode? then [n.target] else []
  }

  function ConfigIdOf(n: Node): seq<string>
  {
    if n.DefaultConfigNode? then [n.id] else []
  }

  function DefaultTargetIdOf(n: Node): Option<string>
  {
    if n.DefaultTargetNode? then Some(n.id) else None
  }

  /** The targets read back, in node order. */
  function LoadedTargets(nodes: seq<Node>): seq<Target>
  {
    Flatten(nodes, TargetOf)
  }

  /** The configuration identities cached while reading, in node order. */
  function CachedConfigIds(nodes: seq<Node>): seq<string>
  {
    Flatten(nodes, ConfigIdOf)
  }

  /** The identity of the default target; a later node overrides an earlier one. */
  function CachedTargetId(nodes: seq<Node>): Option<string>
  {
    LastSome(nodes, DefaultTargetIdOf)
  }

  /** Selects the target that has a configuration with identity `id`, with that configuration. */
  function OwnerOf(id: string): Target -> Option<(Target, Configuration)>
  {
    (t: Target) =>
      match ConfigurationById(t, id)
      case Some(c) => Some((t, c))
      case None => None
  }

  /** The reconciliation pass: each cached identity, in order, is chosen for the
      first target in list order that has a configuration with that identity;
      an identity no target has is dropped, and a later choice for the same
      target replaces an earlier one. */
  function Reconciled(ids: seq<string>, targets: seq<Target>): map<string, Configuration>
  {
    if ids == [] then map[]
    else
      var chosen := Reconciled(ids[..|ids| - 1], targets);
      match FirstSome(targets, OwnerOf(ids[|ids| - 1]))
      case Some(owner) => chosen[owner.0.id := owner.1]
      case None => chosen
  }

  /** The target with the cached default identity, looked up in the identity
      map; `None` when no identity was saved or no target has it. */
  function LoadedDefaultTarget(targets: seq<Target>, id: Option<string>): Option<Target>
  {
    match id
    case Some(i) => if i in IdIndex(targets) then Some(IdIndex(targets)[i]) else None
    case None => None
  }

  /** The state the loading constructor builds from the saved nodes. */
  function Loaded(nodes: seq<Node>): BuildState
  {
    var targets := LoadedTargets(nodes);
    BuildState(targets, LoadedDefaultTarget(targets, CachedTargetId(nodes)),
               Reconciled(CachedConfigIds(nodes), targets))
  }

  // ---- the round trip ----

  /** No two targets share an identity. */
  predicate UniqueTargetIds(targets: seq<Target>)
  {
    forall i, j :: 0 <= i < |targets| && 0 <= j < |targets| && targets[i].id == targets[j].id ==> i == j
  }

  /** No two configurations, of the same target or of two targets, share an identity. */
  predicate UniqueConfigIds(targets: seq<Target>)
  {
    forall i, j, a, b ::
      (0 <= i < |targets| && 0 <= j < |targets| &&
       0 <= a < |targets[i].configurations| && 0 <= b < |targets[j].configurations| &&
       targets[i].configurations[a].id == targets[j].configurations[b].id) ==> i == j && a == b
  }

  /** A configuration is chosen for exactly the listed targets, each one of its own. */
  ghost predicate ChosenForEveryTarget(s: BuildState)
  {
    (forall id :: id in s.defaultConfigurations <==> exists i :: 0 <= i < |s.targets| && s.targets[i].id == id) &&
    ChosenOwn(s)
  }

  /** Reading back the nodes of one target gives that target. */
  lemma {:induction false} TargetsSurvive(s: BuildState, ts: seq<Target>)
    requires HasDefault(s)
    ensures Flatten(Flatten(ts, TargetNodes(s)), TargetOf) == ts
  {
    if ts != [] {
      var init, t := ts[..|ts| - 1], ts[|ts| - 1];
      TargetsSurvive(s, init);
      FlattenAppend(Flatten(init, TargetNodes(s)), TargetNodes(s)(t), TargetOf);
      var tail := TargetNodes(s)(t);
      assert tail == [TargetNode(t)] + tail[1..];
      FlattenAppend([TargetNode(t)], tail[1..], TargetOf);
      FlattenSnoc([], TargetNode(t), TargetOf);
      assert [] + [TargetNode(t)] == [TargetNode(t)];
      if |tail| == 2 {
        FlattenSnoc([], tail[1], TargetOf);
        assert [] + [tail[1]] == tail[1..];
      }
      assert ts == init + [t];
    }
  }

  /** The configuration identity written for a target that has a chosen configuration. */
  function ChosenId(s: BuildState): Target -> seq<string>
  {
    (t: Target) => if t.id in s.defaultConfigurations then [s.defaultConfigurations[t.id].id] else []
  }

  /** Reading back the nodes of targets that all have a choice gives their chosen identities. */
  lemma {:induction false} ConfigIdsSurvive(s: BuildState, ts: seq<Target>)
    requires HasDefault(s)
    requires forall t :: t in ts ==> t.id in s.defaultConfigurations
    ensures Flatten(Flatten(ts, TargetNodes(s)), ConfigIdOf) == Flatten(ts, ChosenId(s))
  {
    if ts != [] {
      var init, t := ts[..|ts| - 1], ts[|ts| - 1];
      assert forall u :: u in init ==> u in ts;
      ConfigIdsSurvive(s, init);
      FlattenAppend(Flatten(init, TargetNodes(s)), TargetNodes(s)(t), ConfigIdOf);
      var c := s.defaultConfigurations[t.id];
      assert TargetNodes(s)(t) == [TargetNode(t), DefaultConfigNode(c.id)];
      FlattenSnoc([], TargetNode(t), ConfigIdOf);
      FlattenSnoc([TargetNode(t)], DefaultConfigNode(c.id), ConfigIdOf);
      assert [] + [TargetNode(t)] == [TargetNode(t)];
      assert [TargetNode(t)] + [DefaultConfigNode(c.id)] == [TargetNode(t), DefaultConfigNode(c.id)];
    }
  }

  /** The choices of the first `k` targets, as a map. */
  function ChoicesUpTo(s: BuildState, k: nat): map<string, Configuration>
    requires k <= |s.targets|
    requires forall i :: 0 <= i < k ==> s.targets[i].id in s.defaultConfigurations
  {
    if k == 0 then map[]
    else ChoicesUpTo(s, k - 1)[s.targets[k - 1].id := s.defaultConfigurations[s.targets[k - 1].id]]
  }

  /** With unique configuration identities, the owner found for a
      configuration of target `k` is target `k` with that configuration. */
  lemma OwnerFound(targets: seq<Target>, k: nat, c: Configuration)
    requires UniqueConfigIds(targets)
    requires k < |targets| && c in targets[k].configurations
    ensures FirstSome(targets, OwnerOf(c.id)) == Some((targets[k], c))
  {
    var t := targets[k];
    var a :| 0 <= a < |t.configurations| && t.configurations[a] == c;
    var r := ConfigurationById(t, c.id);
    assert r.Some? by {
      assert t.configurations[a].id == c.id;
    }
    assert r.value == c by {
      var b :| 0 <= b < |t.configurations| && t.configurations[b] == r.value;
      assert t.configurations[b].id == t.configurations[a].id;
    }
    FirstSomeAt(targets, OwnerOf(c.id), k);
  }

  /** Reconciling one more identity applies it after the earlier ones. */
  lemma ReconciledSnoc(ids: seq<string>, id: string, targets: seq<Target>)
    ensures Reconciled(ids + [id], targets) ==
            match FirstSome(targets, OwnerOf(id))
            case Some(owner) => Reconciled(ids, targets)[owner.0.id := owner.1]
            case None => Reconciled(ids, targets)
  {
    assert (ids + [id])[..|ids|] == ids;
  }

  /** Every listed target has one of its own configurations chosen. */
  predicate ChosenOwn(s: BuildState)
  {
    forall i :: 0 <= i < |s.targets| ==>
      s.targets[i].id in s.defaultConfigurations &&
      s.defaultConfigurations[s.targets[i].id] in s.targets[i].configurations
  }

  /** Reconciling the identities written for the first `k` targets rebuilds their choices. */
  lemma {:induction false} ReconciledRebuilds(s: BuildState, k: nat)
    requires ChosenOwn(s) && UniqueConfigIds(s.targets)
    requires k <= |s.targets|
    ensures Reconciled(Flatten(s.targets[..k], ChosenId(s)), s.targets) == ChoicesUpTo(s, k)
  {
    if k > 0 {
      ReconciledRebuilds(s, k - 1);
      var t := s.targets[k - 1];
      var c := s.defaultConfigurations[t.id];
      var prev := Flatten(s.targets[..k - 1], ChosenId(s));
      TakeOneMore(s.targets, k - 1);
      FlattenSnoc(s.targets[..k - 1], t, ChosenId(s));
      assert Flatten(s.targets[..k], ChosenId(s)) == prev + [c.id];
      ReconciledSnoc(prev, c.id, s.targets);
      OwnerFound(s.targets, k - 1, c);
    }
  }

  /** The choices of the first `k` targets are those targets' entries of the map. */
  lemma {:induction false} ChoicesComplete(s: BuildState, k: nat)
    requires ChosenOwn(s)
    requires k <= |s.targets|
    ensures forall id :: id in ChoicesUpTo(s, k) <==> exists i :: 0 <= i < k && s.targets[i].id == id
    ensures forall id :: id in ChoicesUpTo(s, k) ==> ChoicesUpTo(s, k)[id] == s.defaultConfigurations[id]
  {
    if k > 0 {
      ChoicesComplete(s, k - 1);
    }
  }

  /** The choices of all targets are the whole map when only listed targets have one. */
  lemma ChoicesAll(s: BuildState)
    requires ChosenForEveryTarget(s)
    ensures ChoicesUpTo(s, |s.targets|) == s.defaultConfigurations
  {
    ChoicesComplete(s, |s.targets|);
    assert ChoicesUpTo(s, |s.targets|).Keys == s.defaultConfigurations.Keys;
  }

  /** The saved default identity is found again, and names the default target. */
  lemma DefaultTargetSurvives(s: BuildState)
    requires HasDefault(s) && UniqueTargetIds(s.targets)
    requires s.defaultTarget.Some? ==> s.defaultTarget.value in s.targets
    ensures LoadedDefaultTarget(s.targets, Some(EffectiveDefaultTarget(s).id)) == Some(EffectiveDefaultTarget(s))
  {
    var d := EffectiveDefaultTarget(s);
    var i :| 0 <= i < |s.targets| && s.targets[i] == d;
    IdIndexLastWins(s.targets, d.id);
    LastSomeAt(s.targets, TargetWithId(d.id), i);
  }

  /** Saving and loading gives back the targets, the default target and every
      choice of configuration, provided target identities are unique,
      configuration identities are unique across all targets, the default
      target is one of the listed targets, and every listed target (and no
      other) has a configuration of its own chosen. */
  lemma RoundTrip(s: BuildState)
    requires HasDefault(s)
    requires UniqueTargetIds(s.targets) && UniqueConfigIds(s.targets)
    requires s.defaultTarget.Some? ==> s.defaultTarget.value in s.targets
    requires ChosenForEveryTarget(s)
    ensures Loaded(SerializedNodes(s)) == WithDefaultResolved(s)
  {
    var nodes := SerializedNodes(s);
    var body := Flatten(s.targets, TargetNodes(s));
    var last := DefaultTargetNode(EffectiveDefaultTarget(s).id);
    FlattenSnoc(body, last, TargetOf);
    FlattenSnoc(body, last, ConfigIdOf);
    TargetsSurvive(s, s.targets);
    assert LoadedTargets(nodes) == s.targets;
    assert nodes[|nodes| - 1] == last;
    assert CachedTargetId(nodes) == Some(EffectiveDefaultTarget(s).id);
    DefaultTargetSurvives(s);
    assert forall t :: t in s.targets ==> t.id in s.defaultConfigurations;
    ConfigIdsSurvive(s, s.targets);
    assert CachedConfigIds(nodes) == Flatten(s.targets, ChosenId(s));
    assert s.targets[..|s.targets|] == s.targets;
    ReconciledRebuilds(s, |s.targets|);
    ChoicesAll(s);
  }

  /** The nodes saved for two targets that each have a configuration to write. */
  lemma SavedTwoTargets(s: BuildState, d: Target, t: Target, cd: Configuration, ct: Configuration)
    requires HasDefault(s) && s.targets == [d, t]
    requires DefaultConfigurationOf(s, d) == Some(cd) && DefaultConfigurationOf(s, t) == Some(ct)
    ensures SerializedNodes(s) ==
            [TargetNode(d), DefaultConfigNode(cd.id), TargetNode(t), DefaultConfigNode(ct.id),
             DefaultTargetNode(EffectiveDefaultTarget(s).id)]
  {
    assert TargetNodes(s)(d) == [TargetNode(d), DefaultConfigNode(cd.id)];
    assert TargetNodes(s)(t) == [TargetNode(t), DefaultConfigNode(ct.id)];
    FlattenSnoc([], d, TargetNodes(s));
    FlattenSnoc([d], t, TargetNodes(s));
    assert [] + [d] == [d] && [d] + [t] == [d, t];
  }

  /** Reading back the nodes saved for two targets. */
  lemma LoadedTwoTargets(d: Target, t: Target, x: string, y: string, z: string)
    ensures var nodes := [TargetNode(d), DefaultConfigNode(x), TargetNode(t), DefaultConfigNode(y), DefaultTargetNode(z)];
            LoadedTargets(nodes) == [d, t] && CachedConfigIds(nodes) == [x, y] && CachedTargetId(nodes) == Some(z)
  {
    var nodes := [TargetNode(d), DefaultConfigNode(x), TargetNode(t), DefaultConfigNode(y), DefaultTargetNode(z)];
    var n4 := nodes[..4];
    var n3 := nodes[..3];
    var n2 := nodes[..2];
    var n1 := nodes[..1];
    assert nodes[..5] == nodes;
    assert n4[..3] == n3 && n3[..2] == n2 && n2[..1] == n1 && n1[..0] == [];
    assert Flatten(nodes, TargetOf) == Flatten(n4, TargetOf);
    assert Flatten(n4, TargetOf) == Flatten(n3, TargetOf);
    assert Flatten(n2, TargetOf) == Flatten(n1, TargetOf);
    assert Flatten(nodes, ConfigIdOf) == Flatten(n4, ConfigIdOf);
    assert Flatten(n3, ConfigIdOf) == Flatten(n2, ConfigIdOf);
    assert Flatten(n1, ConfigIdOf) == [];
  }

  /** Without a choice for every target the round trip loses a choice: the
      default target `d` has `c2` chosen out of `c1, c2`, and the other target
      `t` has none. Saving writes `c2` for `d` and the fallback `c1` for `t`;
      loading finds `c1` in `d` and chooses it for `d`, over `c2`. */
  lemma ChoiceLostWithoutChoiceForEveryTarget(d: Target, t: Target, c1: Configuration, c2: Configuration, c3: Configuration)
    requires d.configurations == [c1, c2] && t.configurations == [c3]
    requires d.id != t.id && c1.id != c2.id && c1.id != c3.id && c2.id != c3.id
    ensures var s := BuildState([d, t], Some(d), map[d.id := c2]);
            DefaultConfigurationOf(s, d) == Some(c2) &&
            d.id in Loaded(SerializedNodes(s)).defaultConfigurations &&
            Loaded(SerializedNodes(s)).defaultConfigurations[d.id] == c1
  {
    var s := BuildState([d, t], Some(d), map[d.id := c2]);
    SavedTwoTargets(s, d, t, c2, c1);
    LoadedTwoTargets(d, t, c2.id, c1.id, d.id);
    assert ConfigurationById(d, c1.id) == Some(c1) by {
      FirstSomeAt(d.configurations, ConfigWithId(c1.id), 0);
    }
    assert ConfigurationById(d, c2.id) == Some(c2) by {
      FirstSomeAt(d.configurations, ConfigWithId(c2.id), 1);
    }
    FirstSomeAt([d, t], OwnerOf(c1.id), 0);
    FirstSomeAt([d, t], OwnerOf(c2.id), 0);
    ReconciledSnoc([], c2.id, [d, t]);
    ReconciledSnoc([c2.id], c1.id, [d, t]);
    assert [] + [c2.id] == [c2.id] && [c2.id] + [c1.id] == [c2.id, c1.id];
  }
}
