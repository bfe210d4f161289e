/**
 * What `conversion:advise` prints for a site, as a pure decision over the
 * facts it reads: the upstream id, the skip-upgrade-checks option, the
 * upstream status, the PHP version comparison, the `require` keys of the
 * site's composer.json, the Build Tools flag, the upstream-configuration
 * composer.json and whether the site shares commits with drupal-recommended.
 * The two git side effects (`addRemote`, `fetch`) run against the fake
 * working copy; a failing one aborts the command.
 */
module AdviceRules {
  import opened Wrappers
  import opened GitWorkingCopy

  const Drops8UpstreamId := "drupal8"
  const Drops8GitRemoteUrl := "https://github.com/pantheon-systems/drops-8.git"
  const DrupalProjectUpstreamId := "drupal9"
  const EmptyUpstreamId := "empty"
  const DrupalRecommendedUpstreamId := "drupal-recommended"
  const DrupalRecommendedGitRemoteUrl := "https://github.com/pantheon-upstreams/drupal-recommended.git"

  /** The lines written to the output, as tags. */
  datatype Line =
    | CreatedFrom(upstreamId: string)
    | NoConversionNecessary
    | UpstreamUpdatesNotice
    | PhpVersionNotice
    | ComposerUsedNotice
    | StandardDrupal8
    | ConvertDrops8Advice
    | DrupalProjectNotice
    | ConvertDrupalProjectAdvice
    | BuildToolsNotice
    | SwitchUpstreamAdvice
    | ConvertToRecommendedAdvice
    | BuildToolsAdvice
    | ConvertToComposerAdvice

  /** The lines written to the log. */
  datatype LogLine = ComposerJsonAnalysisFailed | InstalledPackages(packages: seq<string>)

  /**
   * What the command learns about the site. `composerRequire` holds the keys
   * of composer.json's `require` object in file order, and is `None` when
   * reading or decoding it fails; `upstreamConfComposerJson` is the content
   * of upstream-configuration/composer.json when that file exists.
   */
  datatype SiteFacts = SiteFacts(
    upstreamId: string,
    hasUpdates: bool,
    hasComposerUpdates: bool,
    phpBelow74: bool,
    composerRequire: Option<seq<string>>,
    isBuildTools: bool,
    upstreamConfComposerJson: Option<string>,
    commonCommits: bool)

  /** The outcome of a run: the working copy, the lines written, and the git operation that aborted it, if any. */
  datatype Report = Report(repo: Repo, output: seq<Line>, log: seq<LogLine>, failed: Option<Event>)

  // ----- Substrings -----

  predicate StartsWith(s: string, prefix: string) {
    |prefix| <= |s| && s[..|prefix|] == prefix
  }

  /** `strpos($s, $sub) !== false`, scanning from the left. */
  predicate Contains(s: string, sub: string)
    decreases |s|
  {
    StartsWith(s, sub) || (s != [] && Contains(s[1..], sub))
  }

  /** `sub` occurs in `s` starting at position `i`. */
  predicate OccursAt(s: string, sub: string, i: int) {
    0 <= i && i + |sub| <= |s| && s[i..i + |sub|] == sub
  }

  /** The scan finds `sub` exactly when it occurs at some position of `s`. */
  lemma {:induction false} ContainsIff(s: string, sub: string)
    ensures Contains(s, sub) <==> exists i :: OccursAt(s, sub, i)
    decreases |s|
  {
    if StartsWith(s, sub) {
      assert OccursAt(s, sub, 0);
    } else if s != [] {
      ContainsIff(s[1..], sub);
      if Contains(s[1..], sub) {
        var i :| OccursAt(s[1..], sub, i);
        assert s[i + 1..i + 1 + |sub|] == s[1..][i..i + |sub|];
        assert OccursAt(s, sub, i + 1);
      }
      if exists i :: OccursAt(s, sub, i) {
        var i :| OccursAt(s, sub, i);
        assert i != 0;
        assert s[1..][i - 1..i - 1 + |sub|] == s[i..i + |sub|];
        assert OccursAt(s[1..], sub, i - 1);
      }
    }
  }

  // ----- The extra-package filter of adviseOnDrops8 -----

  /** A `require` key that is neither `composer/installers` nor contains `drupal/core-`. */
  predicate KeepPackage(p: string) {
    p != "composer/installers" && !Contains(p, "drupal/core-")
  }

  /** The `require` keys added on top of drops-8, in file order. */
  function ExtraPackages(require: seq<string>): seq<string>
    decreases |require|
  {
    if require == [] then []
    else (if KeepPackage(require[0]) then [require[0]] else []) + ExtraPackages(require[1..])
  }

  /** A key is listed exactly when it is required and kept by the filter. */
  lemma {:induction false} ExtraPackagesMembers(require: seq<string>)
    ensures forall p :: p in ExtraPackages(require) <==> p in require && KeepPackage(p)
    decreases |require|
  {
    if require != [] {
      ExtraPackagesMembers(require[1..]);
      assert require == [require[0]] + require[1..];
    }
  }

  /** The filter keeps the order of the keys: it distributes over concatenation. */
  lemma {:induction false} ExtraPackagesAppend(a: seq<string>, b: seq<string>)
    ensures ExtraPackages(a + b) == ExtraPackages(a) + ExtraPackages(b)
    decreases |a|
  {
    if a != [] {
      assert (a + b)[0] == a[0] && (a + b)[1..] == a[1..] + b;
      var head := if KeepPackage(a[0]) then [a[0]] else [];
      assert ExtraPackages(a + b) == head + ExtraPackages(a[1..] + b);
      ExtraPackagesAppend(a[1..], b);
      AppendAssoc(head, ExtraPackages(a[1..]), ExtraPackages(b));
    } else {
      assert a + b == b;
    }
  }

  /** For two kept keys, the one earlier in composer.json is listed earlier. */
  lemma ExtraPackagesOrder(require: seq<string>, i: nat, j: nat)
    requires i < j < |require| && KeepPackage(require[i]) && KeepPackage(require[j])
    ensures var before := ExtraPackages(require[..i]);
            var extra := ExtraPackages(require);
            && |before| < |ExtraPackages(require[..j])| < |extra|
            && extra[|before|] == require[i]
            && extra[|ExtraPackages(require[..j])|] == require[j]
  {
    ExtraPackagesSplit(require, i);
    ExtraPackagesSplit(require, j);
    ExtraPackagesAppend(require[..j], require[j..]);
    assert require[..j] == require[..i] + require[i..j];
    ExtraPackagesAppend(require[..i], require[i..j]);
    assert require[i..j][0] == require[i];
  }

  /** Cutting `require` before a kept key `k`: that key comes right after the keys listed before it. */
  lemma ExtraPackagesSplit(require: seq<string>, k: nat)
    requires k < |require| && KeepPackage(require[k])
    ensures ExtraPackages(require) == ExtraPackages(require[..k]) + [require[k]] + ExtraPackages(require[k + 1..])
  {
    assert require == require[..k] + require[k..];
    ExtraPackagesAppend(require[..k], require[k..]);
    assert require[k..][1..] == require[k + 1..];
  }

  /** Filtering the filtered list changes nothing. */
  lemma {:induction false} ExtraPackagesIdempotent(require: seq<string>)
    ensures ExtraPackages(ExtraPackages(require)) == ExtraPackages(require)
    decreases |require|
  {
    if require != [] {
      ExtraPackagesIdempotent(require[1..]);
      var head := if KeepPackage(require[0]) then [require[0]] else [];
      ExtraPackagesAppend(head, ExtraPackages(require[1..]));
      if KeepPackage(require[0]) {
        assert ([require[0]] + [])[1..] == [];
      }
    }
  }

  // ----- The advisors -----

  /** The notices of the upgrade checks. */
  function UpgradeNotices(s: SiteFacts, skipUpgradeChecks: bool): seq<Line> {
    if skipUpgradeChecks then []
    else (if s.hasUpdates || s.hasComposerUpdates then [UpstreamUpdatesNotice] else [])
         + (if s.phpBelow74 then [PhpVersionNotice] else [])
  }

  /** The extra packages, or none when the composer.json analysis fails. */
  function Drops8Packages(s: SiteFacts): seq<string> {
    if s.composerRequire.Some? then ExtraPackages(s.composerRequire.value) else []
  }

  /** `adviseOnDrops8`: add and fetch the drops-8 remote, report the extra packages, then recommend the conversion. */
  function Drops8Advice(f: Fakes, r: Repo, s: SiteFacts): Report {
    var addRemote := Op(AddRemote(Drops8GitRemoteUrl, Drops8UpstreamId));
    var fetch := Op(Fetch(Drops8UpstreamId));
    var r1 := Exec(f, r, addRemote).0;
    if addRemote in f.failing then Report(r1, [], [], Some(addRemote))
    else
      var r2 := Exec(f, r1, fetch).0;
      if fetch in f.failing then Report(r2, [], [], Some(fetch))
      else
        var packages := Drops8Packages(s);
        var analysis := if s.composerRequire.None? then [ComposerJsonAnalysisFailed] else [];
        if 0 < |packages| then Report(r2, [ComposerUsedNotice, ConvertDrops8Advice], analysis + [InstalledPackages(packages)], None)
        else Report(r2, [StandardDrupal8, ConvertDrops8Advice], analysis, None)
  }

  /** `adviseOnDrupalProject`: a fixed notice and advice. */
  function DrupalProjectAdvice(): seq<Line> {
    [DrupalProjectNotice, ConvertDrupalProjectAdvice]
  }

  /** `adviseOnEmpty`: the Build Tools notice, then one piece of advice chosen by the decision tree. */
  function EmptyAdvice(f: Fakes, r: Repo, s: SiteFacts): Report {
    var notice := if s.isBuildTools then [BuildToolsNotice] else [];
    if s.upstreamConfComposerJson.Some? && !s.isBuildTools then
      if !Contains(s.upstreamConfComposerJson.value, "drupal/core-recommended") then
        var addRemote := Op(AddRemote(DrupalRecommendedGitRemoteUrl, DrupalRecommendedUpstreamId));
        var r1 := Exec(f, r, addRemote).0;
        if addRemote in f.failing then Report(r1, notice, [], Some(addRemote))
        else if s.commonCommits then Report(r1, notice + [SwitchUpstreamAdvice], [], None)
        else Report(r1, notice + [ConvertToRecommendedAdvice], [], None)
      else Report(r, notice + [ConvertToRecommendedAdvice], [], None)
    else if s.isBuildTools then Report(r, notice + [BuildToolsAdvice], [], None)
    else Report(r, notice + [ConvertToComposerAdvice], [], None)
  }

  /** The advisor chosen by the upstream id; any other id gets none. */
  function UpstreamAdvice(f: Fakes, r: Repo, s: SiteFacts): Report {
    if s.upstreamId == Drops8UpstreamId then Drops8Advice(f, r, s)
    else if s.upstreamId == DrupalProjectUpstreamId then Report(r, DrupalProjectAdvice(), [], None)
    else if s.upstreamId == EmptyUpstreamId then EmptyAdvice(f, r, s)
    else Report(r, [], [], None)
  }

  /** `advise`: the upstream line, then nothing more for drupal-recommended, else the notices and the advisor's lines. */
  function Advice(f: Fakes, r: Repo, s: SiteFacts, skipUpgradeChecks: bool): Report {
    var header := [CreatedFrom(s.upstreamId)];
    if s.upstreamId == DrupalRecommendedUpstreamId then Report(r, header + [NoConversionNecessary], [], None)
    else
      var advice := UpstreamAdvice(f, r, s);
      advice.(output := header + UpgradeNotices(s, skipUpgradeChecks) + advice.output)
  }

  // ----- Properties of the advice -----

  /** drupal-recommended: only the "no conversion" line; no upgrade check, no git operation. */
  lemma RecommendedNeedsNoConversion(f: Fakes, r: Repo, s: SiteFacts, skipUpgradeChecks: bool)
    requires s.upstreamId == DrupalRecommendedUpstreamId
    ensures var rep := Advice(f, r, s, skipUpgradeChecks);
            && rep.output == [CreatedFrom(s.upstreamId), NoConversionNecessary]
            && rep.repo == r && rep.log == [] && rep.failed.None?
  {
  }

  /** No advisor writes an upgrade notice. */
  lemma AdvisorsWriteNoNotice(f: Fakes, r: Repo, s: SiteFacts)
    ensures var out := UpstreamAdvice(f, r, s).output;
            UpstreamUpdatesNotice !in out && PhpVersionNotice !in out
  {
    AdvisorWritesOwnLines(f, r, s);
  }

  /**
   * The updates notice is written exactly when the checks run and there are
   * upstream or Composer updates; the PHP notice exactly when the checks run
   * and the PHP version is below 7.4.
   */
  lemma UpgradeNoticesIff(f: Fakes, r: Repo, s: SiteFacts, skipUpgradeChecks: bool)
    ensures var out := Advice(f, r, s, skipUpgradeChecks).output;
            var checked := s.upstreamId != DrupalRecommendedUpstreamId && !skipUpgradeChecks;
            && (UpstreamUpdatesNotice in out <==> checked && (s.hasUpdates || s.hasComposerUpdates))
            && (PhpVersionNotice in out <==> checked && s.phpBelow74)
  {
    if s.upstreamId != DrupalRecommendedUpstreamId {
      AdvisorsWriteNoNotice(f, r, s);
      var out := Advice(f, r, s, skipUpgradeChecks).output;
      var notices := UpgradeNotices(s, skipUpgradeChecks);
      assert out == [CreatedFrom(s.upstreamId)] + notices + UpstreamAdvice(f, r, s).output;
      assert forall l :: l in out <==> l == CreatedFrom(s.upstreamId) || l in notices || l in UpstreamAdvice(f, r, s).output;
    }
  }

  /** The upstream id whose advisor writes `l`, if any. */
  function AdvisorOf(l: Line): Option<string> {
    match l
    case ComposerUsedNotice | StandardDrupal8 | ConvertDrops8Advice => Some(Drops8UpstreamId)
    case DrupalProjectNotice | ConvertDrupalProjectAdvice => Some(DrupalProjectUpstreamId)
    case BuildToolsNotice | SwitchUpstreamAdvice | ConvertToRecommendedAdvice | BuildToolsAdvice | ConvertToComposerAdvice =>
      Some(EmptyUpstreamId)
    case _ => None
  }

  /**
   * At most one advisor runs, the one of the site's upstream: every line
   * written is the upstream line, a notice, or one of that advisor's lines.
   */
  lemma OneAdvisor(f: Fakes, r: Repo, s: SiteFacts, skipUpgradeChecks: bool)
    ensures forall l | l in Advice(f, r, s, skipUpgradeChecks).output :: AdvisorOf(l).None? || AdvisorOf(l) == Some(s.upstreamId)
  {
    if s.upstreamId != DrupalRecommendedUpstreamId {
      var out := Advice(f, r, s, skipUpgradeChecks).output;
      var notices := UpgradeNotices(s, skipUpgradeChecks);
      var advice := UpstreamAdvice(f, r, s).output;
      AdvisorWritesOwnLines(f, r, s);
      assert out == [CreatedFrom(s.upstreamId)] + notices + advice;
      forall l | l in out ensures AdvisorOf(l).None? || AdvisorOf(l) == Some(s.upstreamId) {
        if l !in advice {
          assert l == CreatedFrom(s.upstreamId) || l in notices;
        }
      }
    }
  }

  /** Each advisor writes only its own lines. */
  lemma AdvisorWritesOwnLines(f: Fakes, r: Repo, s: SiteFacts)
    ensures forall l | l in UpstreamAdvice(f, r, s).output :: AdvisorOf(l) == Some(s.upstreamId)
  {
    if s.upstreamId == Drops8UpstreamId {
      Drops8AdviceLines(f, r, s);
    } else if s.upstreamId == EmptyUpstreamId {
      EmptyAdviceLines(f, r, s);
    }
  }

  lemma Drops8AdviceLines(f: Fakes, r: Repo, s: SiteFacts)
    ensures forall l | l in Drops8Advice(f, r, s).output :: AdvisorOf(l) == Some(Drops8UpstreamId)
  {
  }

  lemma EmptyAdviceLines(f: Fakes, r: Repo, s: SiteFacts)
    ensures forall l | l in EmptyAdvice(f, r, s).output :: AdvisorOf(l) == Some(EmptyUpstreamId)
  {
    var out := EmptyAdvice(f, r, s).output;
    var notice := if s.isBuildTools then [BuildToolsNotice] else [];
    assert || out == notice || out == notice + [SwitchUpstreamAdvice] || out == notice + [ConvertToRecommendedAdvice]
           || out == notice + [BuildToolsAdvice] || out == notice + [ConvertToComposerAdvice];
  }

  /** Any other upstream: the upstream line and the notices only, and the working copy is left alone. */
  lemma OtherUpstreamsGetNoAdvice(f: Fakes, r: Repo, s: SiteFacts, skipUpgradeChecks: bool)
    requires s.upstreamId !in {Drops8UpstreamId, DrupalProjectUpstreamId, EmptyUpstreamId, DrupalRecommendedUpstreamId}
    ensures var rep := Advice(f, r, s, skipUpgradeChecks);
            && rep.output == [CreatedFrom(s.upstreamId)] + UpgradeNotices(s, skipUpgradeChecks)
            && rep.repo == r && rep.log == [] && rep.failed.None?
  {
    assert [CreatedFrom(s.upstreamId)] + UpgradeNotices(s, skipUpgradeChecks) + [] == [CreatedFrom(s.upstreamId)] + UpgradeNotices(s, skipUpgradeChecks);
  }

  /** Only the drops-8 and empty advisors issue git operations. */
  lemma GitOnlyForDrops8AndEmpty(f: Fakes, r: Repo, s: SiteFacts, skipUpgradeChecks: bool)
    ensures Advice(f, r, s, skipUpgradeChecks).repo != r ==> s.upstreamId == Drops8UpstreamId || s.upstreamId == EmptyUpstreamId
  {
  }

  /**
   * drupal8, once the drops-8 remote is added and fetched: the composer
   * notice exactly when there are extra packages, "Standard drupal 8 site."
   * otherwise, and the conversion recommendation last.
   */
  lemma Drops8AdviceLast(f: Fakes, r: Repo, s: SiteFacts, skipUpgradeChecks: bool)
    requires s.upstreamId == Drops8UpstreamId
    requires Op(AddRemote(Drops8GitRemoteUrl, Drops8UpstreamId)) !in f.failing && Op(Fetch(Drops8UpstreamId)) !in f.failing
    ensures var rep := Advice(f, r, s, skipUpgradeChecks);
            var packages := Drops8Packages(s);
            && rep.failed.None?
            && rep.repo.trace == r.trace + [Op(AddRemote(Drops8GitRemoteUrl, Drops8UpstreamId)), Op(Fetch(Drops8UpstreamId))]
            && rep.repo.commits == r.commits
            && rep.output[|rep.output| - 1] == ConvertDrops8Advice
            && (ComposerUsedNotice in rep.output <==> 0 < |packages|)
            && (StandardDrupal8 in rep.output <==> |packages| == 0)
            && (InstalledPackages(packages) in rep.log <==> 0 < |packages|)
  {
    var rep := Advice(f, r, s, skipUpgradeChecks);
    var advice := Drops8Advice(f, r, s).output;
    var notices := UpgradeNotices(s, skipUpgradeChecks);
    assert rep.output == [CreatedFrom(s.upstreamId)] + notices + advice;
    assert forall l :: l in rep.output <==> l == CreatedFrom(s.upstreamId) || l in notices || l in advice;
  }

  /** drupal8 with an unreadable composer.json: the failure is logged and the site is reported as standard. */
  lemma Drops8AnalysisFailure(f: Fakes, r: Repo, s: SiteFacts, skipUpgradeChecks: bool)
    requires s.upstreamId == Drops8UpstreamId && s.composerRequire.None?
    requires Op(AddRemote(Drops8GitRemoteUrl, Drops8UpstreamId)) !in f.failing && Op(Fetch(Drops8UpstreamId)) !in f.failing
    ensures var rep := Advice(f, r, s, skipUpgradeChecks);
            && rep.log == [ComposerJsonAnalysisFailed]
            && StandardDrupal8 in rep.output && ComposerUsedNotice !in rep.output
            && rep.output[|rep.output| - 1] == ConvertDrops8Advice
  {
    Drops8AdviceLast(f, r, s, skipUpgradeChecks);
  }

  /** drupal8: the packages listed in the log are the required keys the filter keeps, in file order. */
  lemma Drops8ListsExtraPackages(f: Fakes, r: Repo, s: SiteFacts, skipUpgradeChecks: bool, packages: seq<string>)
    requires s.upstreamId == Drops8UpstreamId
    requires InstalledPackages(packages) in Advice(f, r, s, skipUpgradeChecks).log
    ensures s.composerRequire.Some? && packages == ExtraPackages(s.composerRequire.value) && packages != []
    ensures forall p :: p in packages <==> p in s.composerRequire.value && KeepPackage(p)
  {
    ExtraPackagesMembers(s.composerRequire.value);
  }

  /** drupal8 when adding or fetching the remote fails: the command stops before any advice. */
  lemma Drops8GitFailure(f: Fakes, r: Repo, s: SiteFacts, skipUpgradeChecks: bool)
    requires s.upstreamId == Drops8UpstreamId
    requires Op(AddRemote(Drops8GitRemoteUrl, Drops8UpstreamId)) in f.failing || Op(Fetch(Drops8UpstreamId)) in f.failing
    ensures var rep := Advice(f, r, s, skipUpgradeChecks);
            && rep.failed.Some? && rep.failed.value in f.failing
            && rep.output == [CreatedFrom(s.upstreamId)] + UpgradeNotices(s, skipUpgradeChecks)
            && rep.log == []
  {
    assert [CreatedFrom(s.upstreamId)] + UpgradeNotices(s, skipUpgradeChecks) + [] == [CreatedFrom(s.upstreamId)] + UpgradeNotices(s, skipUpgradeChecks);
  }

  /** The advice for an empty-upstream site, as a flat table of the four cases. */
  function ExpectedEmptyAdvice(s: SiteFacts): Line {
    var conf := s.upstreamConfComposerJson;
    if conf.Some? && !s.isBuildTools && !Contains(conf.value, "drupal/core-recommended") && s.commonCommits then SwitchUpstreamAdvice
    else if conf.Some? && !s.isBuildTools then ConvertToRecommendedAdvice
    else if s.isBuildTools then BuildToolsAdvice
    else ConvertToComposerAdvice
  }

  /** Whether `adviseOnEmpty` adds the drupal-recommended remote. */
  predicate AddsRecommendedRemote(s: SiteFacts) {
    s.upstreamConfComposerJson.Some? && !s.isBuildTools && !Contains(s.upstreamConfComposerJson.value, "drupal/core-recommended")
  }

  /**
   * empty: the Build Tools notice exactly for Build Tools sites, then exactly
   * one piece of advice, the one the table gives; the drupal-recommended
   * remote is added only when the upstream-configuration composer.json exists,
   * the site is not Build Tools and the file lacks `drupal/core-recommended`.
   */
  lemma EmptyDecision(f: Fakes, r: Repo, s: SiteFacts, skipUpgradeChecks: bool)
    requires s.upstreamId == EmptyUpstreamId
    ensures var rep := Advice(f, r, s, skipUpgradeChecks);
            var addRemote := Op(AddRemote(DrupalRecommendedGitRemoteUrl, DrupalRecommendedUpstreamId));
            var lead := [CreatedFrom(s.upstreamId)] + UpgradeNotices(s, skipUpgradeChecks) + (if s.isBuildTools then [BuildToolsNotice] else []);
            && rep.repo.trace == r.trace + (if AddsRecommendedRemote(s) then [addRemote] else [])
            && rep.repo.commits == r.commits && rep.log == []
            && (rep.failed.Some? <==> AddsRecommendedRemote(s) && addRemote in f.failing)
            && rep.output == lead + (if rep.failed.Some? then [] else [ExpectedEmptyAdvice(s)])
  {
    var notices := [CreatedFrom(s.upstreamId)] + UpgradeNotices(s, skipUpgradeChecks);
    var notice := if s.isBuildTools then [BuildToolsNotice] else [];
    var rep := EmptyAdvice(f, r, s);
    if rep.failed.Some? {
      assert rep.output == notice + [];
    } else {
      assert rep.output == notice + [ExpectedEmptyAdvice(s)];
      AppendAssoc(notices, notice, [ExpectedEmptyAdvice(s)]);
    }
    if !AddsRecommendedRemote(s) {
      assert r.trace + [] == r.trace;
    }
  }

  /** empty: the Build Tools notice is written exactly for Build Tools sites. */
  lemma EmptyBuildToolsNotice(f: Fakes, r: Repo, s: SiteFacts, skipUpgradeChecks: bool)
    requires s.upstreamId == EmptyUpstreamId
    ensures BuildToolsNotice in Advice(f, r, s, skipUpgradeChecks).output <==> s.isBuildTools
  {
    EmptyDecision(f, r, s, skipUpgradeChecks);
    var out := Advice(f, r, s, skipUpgradeChecks).output;
    var notices := [CreatedFrom(s.upstreamId)] + UpgradeNotices(s, skipUpgradeChecks);
    var notice := if s.isBuildTools then [BuildToolsNotice] else [];
    var tail := if Advice(f, r, s, skipUpgradeChecks).failed.Some? then [] else [ExpectedEmptyAdvice(s)];
    assert out == notices + notice + tail;
    assert forall l :: l in out <==> l in notices || l in notice || l in tail;
  }
}
