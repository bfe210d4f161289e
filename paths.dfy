/**
 * Paths as lists of segments. `Files::buildPath` joins its arguments with the
 * directory separator, so building a path is concatenation of segment lists.
 */
module Paths {

  type Path = seq<string>

  /** The sub-directory that holds Drupal on a webroot-based site. */
  const WebRoot: string := "web"

  /** `sites/default`, relative to the Drupal root. */
  const SitesDefault: Path := ["sites", "default"]

  /** The site-behaviour configuration file, relative to the site root. */
  const PantheonYmlPath: Path := ["pantheon.yml"]

  /**
   * `getWebRootAwareRelativePath`: the path of `parts` relative to the site
   * root, given whether Drupal lives under `web`.
   */
  function WebRootAware(webRoot: bool, parts: Path): (p: Path)
    ensures |p| == |parts| + (if webRoot then 1 else 0)
    ensures p[|p| - |parts|..] == parts
    ensures webRoot ==> p[0] == WebRoot
  {
    if webRoot then [WebRoot] + parts else parts
  }

  /**
   * `getDrupalAbsolutePath`: the Drupal installation directory under the
   * local copy of the site.
   */
  function DrupalPath(localPath: Path, webRoot: bool): (p: Path)
    ensures |p| == |localPath| + (if webRoot then 1 else 0)
    ensures p[..|localPath|] == localPath
    ensures webRoot ==> p[|p| - 1] == WebRoot
  {
    if webRoot then localPath + [WebRoot] else localPath
  }

  /** The webroot-aware path is `web` followed by the parts exactly when the site is webroot-based. */
  lemma WebRootAwareIff(webRoot: bool, parts: Path)
    ensures WebRootAware(webRoot, parts) == [WebRoot] + parts <==> webRoot
    ensures WebRootAware(webRoot, parts) == parts <==> !webRoot
  {
    assert |[WebRoot] + parts| != |parts|;
  }

  /** The Drupal root is the local copy followed by `web` exactly when the site is webroot-based. */
  lemma DrupalPathIff(localPath: Path, webRoot: bool)
    ensures DrupalPath(localPath, webRoot) == localPath + [WebRoot] <==> webRoot
    ensures DrupalPath(localPath, webRoot) == localPath <==> !webRoot
  {
    assert |localPath + [WebRoot]| != |localPath|;
  }
}
