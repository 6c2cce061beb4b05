/** Static helpers of `Jenkins` that build URL paths. */
module Paths {
  import opened Text

  /** The folder part of a job URL: "job/<folder>/" for each enclosing folder, outermost first. */
  function FolderPrefix(folders: seq<string>): string {
    if |folders| == 0 then "" else FolderPrefix(folders[..|folders| - 1]) + "job/" + folders[|folders| - 1] + "/"
  }

  /** The enclosing folders of a slash-separated job name. */
  function Folders(name: string): seq<string> {
    var parts := Split(name, '/');
    parts[..|parts| - 1]
  }

  /**
   * `_get_folder_and_job_name`: the last '/'-separated piece is the job,
   * every piece before it becomes one "job/<folder>/" segment, in order.
   */
  method FolderAndJobName(name: string) returns (folder: string, job: string)
    ensures job == Split(name, '/')[|Split(name, '/')| - 1] && '/' !in job
    ensures folder == FolderPrefix(Folders(name))
  {
    var parts := Split(name, '/');
    job := parts[|parts| - 1];
    folder := "";
    var i := 0;
    while i < |parts| - 1
      invariant 0 <= i <= |parts| - 1
      invariant folder == FolderPrefix(parts[..i])
    {
      assert parts[..i + 1][..i] == parts[..i];
      folder := folder + "job/" + parts[i] + "/";
      i := i + 1;
    }
    assert parts[..|parts| - 1] == Folders(name);
  }

  /** A name without '/' is a top-level job: no folder, and the job is the whole name. */
  lemma {:induction false} TopLevelJob(name: string)
    ensures Folders(name) == [] <==> '/' !in name
    ensures '/' !in name ==> FolderPrefix(Folders(name)) == "" && Split(name, '/') == [name]
  {
    SplitSingleton(name, '/');
  }

  /** The folders and the job name put back together with '/' give the original name. */
  lemma FoldersAndJobRebuildName(name: string)
    ensures var parts := Split(name, '/');
      Join(Folders(name) + [parts[|parts| - 1]], '/') == name
  {
    var parts := Split(name, '/');
    assert Folders(name) + [parts[|parts| - 1]] == parts;
    JoinSplit(name, '/');
  }

  /** The folder prefix is five characters ("job/" and "/") per folder longer than the folder names together. */
  lemma {:induction false} FolderPrefixLength(folders: seq<string>)
    ensures |FolderPrefix(folders)| == 5 * |folders| + SumLengths(folders)
    decreases |folders|
  {
    if |folders| > 0 {
      FolderPrefixLength(folders[..|folders| - 1]);
    }
  }

  function SumLengths(folders: seq<string>): nat {
    if |folders| == 0 then 0 else SumLengths(folders[..|folders| - 1]) + |folders[|folders| - 1]|
  }

  const TokenDescriptor := "/me/descriptorByName/jenkins.security.ApiTokenProperty/"

  /** `_build_token_url`: the API-token descriptor path followed by the action. */
  function TokenUrl(action: string): (url: string)
    ensures StartsWith(url, TokenDescriptor) && url[|TokenDescriptor|..] == action
  {
    TokenDescriptor + action
  }
}
