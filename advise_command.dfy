/**
 * `conversion:advise` as the command object: it writes its lines one at a
 * time to the output and the log, and adds remotes to the site's working
 * copy. Each method is proved to do what the matching function of
 * `AdviceRules` describes.
 */
module AdviseCommand {
  import opened Wrappers
  import opened GitWorkingCopy
  import opened AdviceRules

  class Command {
    const git: FakeGit
    var output: seq<Line>
    var log: seq<LogLine>

    constructor (git: FakeGit)
      ensures this.git == git && output == [] && log == []
    {
      this.git := git;
      output, log := [], [];
    }

    method WriteLine(l: Line)
      modifies this`output
      ensures output == old(output) + [l]
    {
      output := output + [l];
    }

    /** `advise`: the upstream line, then the upgrade notices and the advisor of the site's upstream. */
    method Advise(s: SiteFacts, skipUpgradeChecks: bool) returns (failed: Option<Event>)
      modifies this, git
      ensures var rep := Advice(git.fakes, old(git.State()), s, skipUpgradeChecks);
              && git.State() == rep.repo && failed == rep.failed
              && output == old(output) + rep.output && log == old(log) + rep.log
    {
      WriteLine(CreatedFrom(s.upstreamId));
      if s.upstreamId == DrupalRecommendedUpstreamId {
        WriteLine(NoConversionNecessary);
        AppendAssoc(old(output), [CreatedFrom(s.upstreamId)], [NoConversionNecessary]);
        return None;
      }
      if !skipUpgradeChecks {
        ghost var before := output;
        if s.hasUpdates || s.hasComposerUpdates {
          WriteLine(UpstreamUpdatesNotice);
        }
        ghost var middle := output;
        if s.phpBelow74 {
          WriteLine(PhpVersionNotice);
        }
        AppendAssoc(before, middle[|before|..], output[|middle|..]);
      }
      assert output == old(output) + ([CreatedFrom(s.upstreamId)] + UpgradeNotices(s, skipUpgradeChecks));
      AppendAssoc(old(output), [CreatedFrom(s.upstreamId)] + UpgradeNotices(s, skipUpgradeChecks), UpstreamAdvice(git.fakes, old(git.State()), s).output);
      if s.upstreamId == Drops8UpstreamId {
        failed := AdviseOnDrops8(s);
        return;
      }
      if s.upstreamId == DrupalProjectUpstreamId {
        AdviseOnDrupalProject();
        return None;
      }
      if s.upstreamId == EmptyUpstreamId {
        failed := AdviseOnEmpty(s);
        return;
      }
      return None;
    }

    /** `adviseOnDrops8`. */
    method AdviseOnDrops8(s: SiteFacts) returns (failed: Option<Event>)
      modifies this, git
      ensures var rep := Drops8Advice(git.fakes, old(git.State()), s);
              && git.State() == rep.repo && failed == rep.failed
              && output == old(output) + rep.output && log == old(log) + rep.log
    {
      var ok := git.AddRemote(Drops8GitRemoteUrl, Drops8UpstreamId);
      if !ok {
        return Some(Op(AddRemote(Drops8GitRemoteUrl, Drops8UpstreamId)));
      }
      ok := git.Fetch(Drops8UpstreamId);
      if !ok {
        return Some(Op(Fetch(Drops8UpstreamId)));
      }
      var packages: seq<string> := [];
      if s.composerRequire.Some? {
        packages := ExtraPackages(s.composerRequire.value);
      } else {
        log := log + [ComposerJsonAnalysisFailed];
      }
      if 0 < |packages| {
        WriteLine(ComposerUsedNotice);
        log := log + [InstalledPackages(packages)];
      } else {
        WriteLine(StandardDrupal8);
      }
      WriteLine(ConvertDrops8Advice);
      return None;
    }

    /** `adviseOnDrupalProject`. */
    method AdviseOnDrupalProject()
      modifies this`output
      ensures output == old(output) + DrupalProjectAdvice()
    {
      WriteLine(DrupalProjectNotice);
      WriteLine(ConvertDrupalProjectAdvice);
    }

    /** `adviseOnEmpty`. */
    method AdviseOnEmpty(s: SiteFacts) returns (failed: Option<Event>)
      modifies this, git
      ensures var rep := EmptyAdvice(git.fakes, old(git.State()), s);
              && git.State() == rep.repo && failed == rep.failed
              && output == old(output) + rep.output && log == old(log) + rep.log
    {
      if s.isBuildTools {
        WriteLine(BuildToolsNotice);
      }
      if s.upstreamConfComposerJson.Some? && !s.isBuildTools {
        if !Contains(s.upstreamConfComposerJson.value, "drupal/core-recommended") {
          var ok := git.AddRemote(DrupalRecommendedGitRemoteUrl, DrupalRecommendedUpstreamId);
          if !ok {
            return Some(Op(AddRemote(DrupalRecommendedGitRemoteUrl, DrupalRecommendedUpstreamId)));
          }
          if s.commonCommits {
            WriteLine(SwitchUpstreamAdvice);
            return None;
          }
        }
        WriteLine(ConvertToRecommendedAdvice);
        return None;
      }
      if s.isBuildTools {
        WriteLine(BuildToolsAdvice);
        return None;
      }
      WriteLine(ConvertToComposerAdvice);
      return None;
    }
  }
}
