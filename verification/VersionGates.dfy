/** The rules built on the version order: who may create an upgrade task
    (modules/runtime/upgrade.go), when a report closes one, and when an update is
    advertised (modules/runtime/cc_octo.go, modules/runtime/api.go). */
module VersionGates {
  import opened Wrappers
  import opened Versions
  import Text

  // ----- gates: does the version check let a new task to `latest` through? -----

  /** Provider CLI: an empty reported version is refused, dev builds pass unless equal. */
  ghost predicate ProviderGateAccepts(from: string, latest: string) {
    && from != "" && latest != "" && from != latest
    && (from == "dev" || from == "unknown" || Older(from, latest))
  }

  /** Adapter plugin: an empty version is an install. */
  ghost predicate PluginGateAccepts(from: string, latest: string) {
    latest != "" && from != latest && Older(from, latest)
  }

  /** The daemon itself: an empty version means not reported and passes. */
  ghost predicate DaemonGateAccepts(from: string, latest: string) {
    && latest != ""
    && (from == "" || (from != latest && (from == "dev" || from == "unknown" || Older(from, latest))))
  }

  // ----- close-out: does a reported version complete a task to `to`? -----

  ghost predicate ClosesRuntimeTask(actual: string, to: string) {
    actual == to || Older(to, actual)
  }

  predicate ClosesDaemonTask(actual: string, to: string) {
    actual == to
  }

  // ----- hints -----

  datatype Component = Component(name: string, version: string)

  datatype Hint = Hint(latest: string, current: string)

  const DAEMON := "octo-daemon"

  /** The version of the first component of that name, empty if there is none. */
  function FirstVersion(components: seq<Component>, name: string): string {
    if components == [] then ""
    else if components[0].name == name then components[0].version
    else FirstVersion(components[1..], name)
  }

  ghost predicate ShowsDaemonHint(current: string, latest: string) {
    latest != "" && current != "" && Older(current, latest)
  }

  method ComputeDaemonHint(components: seq<Component>, latest: string) returns (hint: Option<Hint>)
    ensures hint.Some? <==> ShowsDaemonHint(FirstVersion(components, DAEMON), latest)
    ensures hint.Some? ==> hint.value == Hint(latest, FirstVersion(components, DAEMON))
  {
    if latest == "" {
      return None;
    }
    var current := "";
    var i := 0;
    while i < |components|
      invariant 0 <= i <= |components|
      invariant current == ""
      invariant FirstVersion(components, DAEMON) == FirstVersion(components[i..], DAEMON)
    {
      if components[i].name == DAEMON {
        current := components[i].version;
        break;
      }
      i := i + 1;
    }
    assert current == FirstVersion(components, DAEMON);
    if current == "" {
      return None;
    }
    var older := IsVersionOlder(current, latest);
    if !older {
      return None;
    }
    hint := Some(Hint(latest, current));
  }

  ghost predicate Outdated(plugin: Component, name: string, latest: string) {
    plugin.name == name && plugin.version != "" && Older(plugin.version, latest)
  }

  /** Some plugin entry of that name reports a version older than `latest`. */
  ghost predicate SomeOutdated(plugins: seq<Component>, name: string, latest: string) {
    exists i :: 0 <= i < |plugins| && Outdated(plugins[i], name, latest)
  }

  method ComputePluginHint(plugins: seq<Component>, name: string, latest: string) returns (hint: Option<string>)
    ensures hint == if latest != "" && SomeOutdated(plugins, name, latest) then Some(latest) else None
  {
    hide Older;
    if latest == "" {
      return None;
    }
    for i := 0 to |plugins|
      invariant forall j | 0 <= j < i :: !Outdated(plugins[j], name, latest)
    {
      if plugins[i].name == name && plugins[i].version != "" {
        var older := IsVersionOlder(plugins[i].version, latest);
        if older {
          assert Outdated(plugins[i], name, latest);
          return Some(latest);
        }
      }
    }
    return None;
  }

  // ----- agreement -----

  lemma UnreleasedIsNeverNewer(v: string, special: string)
    requires Unreleased(special)
    ensures !Older(v, special)
  {
    UnreleasedDoesNotParse(special);
  }

  /** A report that closes a task to `latest` makes both runtime gates refuse a new
      task from that version to `latest`; this holds for every `latest`, released
      or not. */
  lemma ClosedMeansRefused(actual: string, latest: string)
    requires ClosesRuntimeTask(actual, latest)
    ensures !ProviderGateAccepts(actual, latest) && !PluginGateAccepts(actual, latest)
  {
    OlderIsStrictPartialOrder(latest, actual, latest);
    if Unreleased(actual) {
      UnreleasedIsNeverNewer(latest, actual);
    }
  }

  /** The daemon's close-out needs the very same string, so its gate refuses as well. */
  lemma ClosedDaemonMeansRefused(actual: string, latest: string)
    requires ClosesDaemonTask(actual, latest) && actual != ""
    ensures !DaemonGateAccepts(actual, latest)
  {
    OlderIsStrictPartialOrder(actual, latest, actual);
  }

  /** For one and the same version of the daemon, the advertised hint and the gate agree
      unless a version is published and either none is reported or the two are different
      names out of "dev" and "unknown". */
  lemma DaemonHintMatchesGate(current: string, latest: string)
    ensures (ShowsDaemonHint(current, latest) <==> DaemonGateAccepts(current, latest))
            <==> latest == "" ||
                 (current != "" && !(Unreleased(current) && latest in {"dev", "unknown"} && current != latest))
  {
    OlderIsStrictPartialOrder(current, latest, current);
    if latest == "dev" || latest == "unknown" {
      UnreleasedIsNeverNewer(current, latest);
    }
  }

  lemma SemverIsReleased(latest: string)
    requires SemverLike(latest)
    ensures !Unreleased(latest)
  {
    var x: Semver :| x.WellFormed() && latest == x.Text();
    var n := if x.prefixed then 1 else 0;
    assert latest[n] == x.major[0];
    assert x.prefixed ==> latest[0] == 'v';
  }

  /** Every release is newer than each name for "no released version", and never older. */
  lemma ReleasesAreNewest(v: string, name: string)
    requires SemverLike(v) && name in {"dev", "unknown", ""}
    ensures Older(name, v) && !Older(v, name)
  {
    hide SemverLike;
    SemverIsReleased(v);
    UnreleasedIsNeverNewer(v, name);
  }

  /** Published versions are `SemverLike`, so for them only a missing report is left. */
  lemma DaemonHintMatchesGateForReleases(current: string, latest: string)
    requires SemverLike(latest)
    ensures (ShowsDaemonHint(current, latest) <==> DaemonGateAccepts(current, latest)) <==> current != ""
  {
    SemverIsReleased(latest);
    DaemonHintMatchesGate(current, latest);
  }

  /** The code's comment promises that a runtime task closes as soon as the reported
      version is at least the target. Among versions that parse this holds except
      for two spellings of one version, such as "v1.0" and "1.0": there the report
      closes nothing and the gate refuses too, so only the sweeper ends the task. */
  lemma CloseOutMissesOtherSpellings(actual: string, to: string)
    requires Parsed(actual).Some? && Parsed(to).Some?
    ensures (ClosesRuntimeTask(actual, to) <==> !Older(actual, to))
            <==> !(actual != to && SamePadded(Parsed(actual).value, Parsed(to).value))
    ensures actual != to && SamePadded(Parsed(actual).value, Parsed(to).value) ==>
              !ClosesRuntimeTask(actual, to) && !ProviderGateAccepts(actual, to) && !PluginGateAccepts(actual, to)
  {
    IncomparableIffSamePadded(actual, to);
    OlderIsStrictPartialOrder(actual, to, actual);
    if Unreleased(actual) {
      UnreleasedDoesNotParse(actual);
    }
  }

  /** The other side of the gate: among versions that parse a runtime's request is let
      through exactly if the two are not spellings of one version and a report of the
      runtime's version would not close the task. */
  lemma ProviderGateIff(from: string, latest: string)
    requires Parsed(from).Some? && Parsed(latest).Some?
    ensures ProviderGateAccepts(from, latest) <==>
            !SamePadded(Parsed(from).value, Parsed(latest).value) && !ClosesRuntimeTask(from, latest)
    ensures ProviderGateAccepts(from, latest) <==> Older(from, latest)
  {
    IncomparableIffSamePadded(from, latest);
    OlderIsStrictPartialOrder(from, latest, from);
    forall v | v in {from, latest} && Unreleased(v) ensures false {
      UnreleasedDoesNotParse(v);
    }
  }

  /** What is no release: a runtime that reports "dev" or "unknown" may go to any other
      published version, one that reports nothing may not; for a plugin that is not
      installed every release may be requested. */
  lemma UnreleasedAtTheGates(latest: string)
    ensures forall name | name in {"dev", "unknown"} ::
            ProviderGateAccepts(name, latest) <==> latest != "" && latest != name
    ensures !ProviderGateAccepts("", latest)
    ensures PluginGateAccepts("", latest) <==> latest !in {"", "dev", "unknown"}
    ensures DaemonGateAccepts("", latest) <==> latest != ""
  {
  }

  /** The exception is real for every release version that may be published: with the
      target prefixed by "v" and the same version reported without it, the report is
      not older than the target and yet closes nothing. */
  lemma CloseOutMissesAPrefix(x: Semver)
    requires x.WellFormed() && x.FitsInt() && x.prefixed
    ensures var to, actual := x.Text(), x.(prefixed := false).Text();
            && SemverLike(to) && SemverLike(actual) && to == "v" + actual
            && !Older(actual, to) && !ClosesRuntimeTask(actual, to)
  {
    hide Older;
    var plain := x.(prefixed := false);
    WithoutPrefix(x);
    SemverParses(plain);
    PrefixIsIgnored(plain.Text());
    hide Parsed;
    SameNumbersAreIncomparable(plain.Text(), x.Text());
    assert |x.Text()| == |plain.Text()| + 1;
  }

  lemma WithoutPrefix(x: Semver)
    requires x.WellFormed() && x.FitsInt() && x.prefixed
    ensures var plain := x.(prefixed := false);
            plain.WellFormed() && plain.FitsInt() && x.Text() == "v" + plain.Text() && plain.Text()[..1] != "v"
  {
    var plain := x.(prefixed := false);
    assert plain.Groups() == x.Groups();
    assert forall i | 0 <= i < |plain.Groups()| :: FitsGroup(plain.Groups()[i]) by {
      assert forall i | 0 <= i < |x.Groups()| :: FitsGroup(x.Groups()[i]);
    }
    assert "" + x.Body() == x.Body();
    assert "v" + x.Body() + x.suffix == "v" + (x.Body() + x.suffix);
    assert plain.Text()[0] == x.major[0];
  }

  lemma SameNumbersAreIncomparable(a: string, b: string)
    requires Parsed(a).Some? && Parsed(b) == Parsed(a)
    ensures !Older(a, b) && !Older(b, a)
  {
    IncomparableIffSamePadded(a, b);
  }

  /** For example, the target "v1.0" installed and reported as "1.0". */
  lemma CloseOutMissesOnePointZero()
    ensures SemverLike("v1.0") && !Older("1.0", "v1.0") && !ClosesRuntimeTask("1.0", "v1.0")
  {
    hide Older, ClosesRuntimeTask;
    var x := Semver(true, "1", "0", None, "");
    assert Text.Value("1"[..0]) == 0 && Text.Value("0"[..0]) == 0;
    assert x.Groups() == ["1", "0"];
    CloseOutMissesAPrefix(x);
    assert x.Text() == "v1.0" && x.(prefixed := false).Text() == "1.0";
  }

  lemma PrefixIsIgnored(v: string)
    requires v == "" || v[0] != 'v'
    ensures Parsed("v" + v) == Parsed(v)
  {
    assert ("v" + v)[1..] == v;
  }

  /** With one entry per plugin name the plugin hint is shown exactly when the gate,
      which looks at the first entry of that name, lets an update through. */
  lemma PluginHintMatchesGate(plugins: seq<Component>, name: string, latest: string)
    requires forall i, j | 0 <= i < j < |plugins| :: plugins[i].name != name || plugins[j].name != name
    ensures (latest != "" && SomeOutdated(plugins, name, latest)) <==>
            (FirstVersion(plugins, name) != "" && PluginGateAccepts(FirstVersion(plugins, name), latest))
  {
    var first := FirstVersion(plugins, name);
    OlderIsStrictPartialOrder(first, latest, first);
    FirstVersionIs(plugins, name);
    if first != "" && Older(first, latest) {
      var i :| 0 <= i < |plugins| && plugins[i] == Component(name, first);
      assert Outdated(plugins[i], name, latest);
    }
  }

  /** Of several components with one name the first one counts. */
  lemma {:induction false} FirstVersionIsFirst(components: seq<Component>, name: string, i: int)
    requires 0 <= i < |components| && components[i].name == name
    requires forall j | 0 <= j < i :: components[j].name != name
    ensures FirstVersion(components, name) == components[i].version
  {
    if i > 0 {
      FirstVersionIsFirst(components[1..], name, i - 1);
    }
  }

  lemma {:induction false} FirstVersionIs(plugins: seq<Component>, name: string)
    requires forall i, j | 0 <= i < j < |plugins| :: plugins[i].name != name || plugins[j].name != name
    ensures forall i | 0 <= i < |plugins| && plugins[i].name == name ::
            plugins[i].version == FirstVersion(plugins, name)
    ensures FirstVersion(plugins, name) != "" ==>
              exists i :: 0 <= i < |plugins| && plugins[i] == Component(name, FirstVersion(plugins, name))
  {
    if plugins != [] {
      var rest := plugins[1..];
      assert forall i | 0 <= i < |rest| :: rest[i] == plugins[i + 1];
      FirstVersionIs(rest, name);
      assert forall i | 1 <= i < |plugins| :: plugins[i] == rest[i - 1];
      if plugins[0].name == name {
        assert plugins[0] == Component(name, FirstVersion(plugins, name));
      }
    }
  }
}
